/**
 Journaled activation and recovery of the shared staging ingress (ops/staging/ingress-control.py).

 A controller run is a sequence of effects; it may crash between any two of them, and every command
 or file write may fail with or without having taken effect. Runs exclude each other (deploy lock);
 everything else on the host may change at any time, and the gateway itself between runs.

 `fingerprint` is modelled as collision-free: a snapshot is its own digest.
 */
module IngressControl {
  import opened Base

  /** The observed host state a plan is made from. `origin` stands for the pinned sources, image and hashes. */
  datatype Snapshot = Snapshot(origin: Id, gateway: Id, gatewayState: nat, shared: bool, applications: Id, network: bool)

  type Digest = Snapshot

  datatype Manifest = Manifest(origin: Id, shared: bool)

  datatype Phase = Prepared | NetworkCreated | GatewayStarted | PhaseApplied | PhaseRecovered | PhaseRecoveryFailed

  datatype Record = Record(before: Snapshot, phase: Phase, email: Id, afterGateway: Option<Id>)

  /** The manifest file a gateway container was created from, as its compose labels say. */
  datatype Maker = ByPlan(digest: Digest, shared: bool) | ByDeploy(shared: bool)

  datatype Gateway = Gateway(id: Id, maker: Maker)

  datatype Effect = Composed(digest: Digest, shared: bool) | Journaled(digest: Digest, phase: Phase) | Deployed

  datatype Host = Host(
    gateway: Option<Gateway>,
    gatewayState: nat,
    applications: Id,
    network: bool,
    configs: set<nat>,
    journals: map<Digest, Record>,
    baselines: map<Digest, Manifest>,
    desired: map<Digest, Manifest>,
    nextGateway: Id,
    log: seq<Effect>)           // the mutations of journals and gateway, in order

  datatype Mode = Plan | Apply | Recover

  datatype Request = Request(mode: Mode, digest: Digest, origin: Id, email: Id)

  datatype Outcome =
    | Planned(digest: Digest)
    | Applied(gateway: Id)
    | AlreadyActive
    | Recovered
    | ActivationFailed
    | RecoveryFailed
    | Refused
    | ControlFailed

  datatype Pc =
    | Inspecting
    | WritingJournal
    | WritingBaseline
    | WritingDesired
    | CreatingNetwork
    | NotingNetwork
    | WritingConfig(file: nat)
    | MarkingStarted
    | ComposingShared
    | VerifyingShared
    | WritingApplied(after: Id)
    | ComposingBaseline
    | VerifyingBaseline
    | WritingRecovered
    | WritingRecoveryFailed
    | Done(outcome: Outcome)

  datatype Controller = Controller(request: Request, before: Snapshot, record: Record, pc: Pc)

  datatype System = System(host: Host, controller: Option<Controller>)

  /** What `docker compose up` left behind: nothing changed, no container, or one made from the manifest. */
  datatype ComposeEffect = Unchanged | Removed | Made

  /** How the environment answers one step: success, and what a failing step did all the same. */
  datatype Choice = Choice(ok: bool, tookEffect: bool, compose: ComposeEffect)

  datatype Action =
    | Begin(request: Request)
    | Step(choice: Choice)
    | Crash
    | Deploy(gateway: bool, shared: bool)   // another holder of the lock replaces or removes the gateway
    | Drift(gatewayState: nat, applications: Id, network: bool)

  // ---------------------------------------------------------------- the host

  predicate Shared(h: Host) {
    h.gateway.Some? && h.gateway.value.maker.shared
  }

  function Observed(h: Host, origin: Id): Snapshot
    requires h.gateway.Some?
  {
    Snapshot(origin, h.gateway.value.id, h.gatewayState, Shared(h), h.applications, h.network)
  }

  function WriteJournal(h: Host, d: Digest, r: Record): Host {
    h.(journals := h.journals[d := r], log := h.log + [Journaled(d, r.phase)])
  }

  function Compose(h: Host, d: Digest, shared: bool, e: ComposeEffect): Host {
    var h' := h.(log := h.log + [Composed(d, shared)]);
    match e
    case Unchanged => h'
    case Removed => h'.(gateway := None)
    case Made => h'.(gateway := Some(Gateway(h.nextGateway, ByPlan(d, shared))), nextGateway := h.nextGateway + 1)
  }

  predicate JournalMatches(r: Record, request: Request) {
    r.before.origin == request.origin && r.before == request.digest && r.email == request.email
  }

  /** Everything `recover` demands of the files it left behind. */
  predicate RecoveryReady(h: Host, request: Request) {
    && request.digest in h.journals
    && JournalMatches(h.journals[request.digest], request)
    && request.digest in h.baselines
    && h.baselines[request.digest] == Manifest(request.origin, false)
  }

  // ---------------------------------------------------------------- one step of a run

  function Went(h: Host, c: Controller, pc: Pc): System {
    System(h, Some(c.(pc := pc)))
  }

  /** An exception inside the guarded region, before or after the gateway may have been touched. */
  function Fail(c: Controller): Pc {
    match c.pc
    case MarkingStarted => ComposingBaseline
    case ComposingShared => ComposingBaseline
    case VerifyingShared => ComposingBaseline
    case WritingApplied(_) => ComposingBaseline
    case ComposingBaseline => WritingRecoveryFailed
    case VerifyingBaseline => WritingRecoveryFailed
    case WritingRecovered => WritingRecoveryFailed
    case _ => Done(ActivationFailed)
  }

  function Inspect(h: Host, c: Controller, choice: Choice): Controller {
    var q := c.request;
    if !choice.ok then c.(pc := Done(Refused))
    else if q.mode == Recover then
      (if RecoveryReady(h, q) && h.applications == h.journals[q.digest].before.applications
       then c.(before := q.digest, record := h.journals[q.digest], pc := ComposingBaseline)
       else c.(pc := Done(Refused)))
    else if h.gateway.None? then c.(pc := Done(Refused))
    else
      var before := Observed(h, q.origin);
      if q.mode == Plan then c.(pc := Done(Planned(before)))
      else if q.digest in h.journals && !JournalMatches(h.journals[q.digest], q) then c.(pc := Done(Refused))
      else if q.digest in h.journals && h.journals[q.digest].phase == PhaseApplied && before.shared
              && h.journals[q.digest].afterGateway == Some(before.gateway) then
        c.(pc := Done(if h.applications == h.journals[q.digest].before.applications then AlreadyActive else Refused))
      else if before != q.digest then c.(pc := Done(Refused))
      else if before.shared then c.(pc := Done(AlreadyActive))
      else if q.digest in h.journals then c.(pc := Done(Refused))
      else c.(before := before, record := Record(before, Prepared, q.email, None), pc := WritingJournal)
  }

  /** An atomic replace of the journal, followed by `next` or by the exception path. */
  function Note(h: Host, c: Controller, phase: Phase, choice: Choice, next: Pc, otherwise: Pc): System {
    var c' := c.(record := c.record.(phase := phase));
    var h' := if choice.ok || choice.tookEffect then WriteJournal(h, c.request.digest, c'.record) else h;
    System(h', Some(c'.(pc := if choice.ok then next else otherwise)))
  }

  function StepOf(s: System, c: Controller, choice: Choice): System {
    var h, d := s.host, c.request.digest;
    match c.pc
    case Inspecting => System(h, Some(Inspect(h, c, choice)))
    case WritingJournal => Note(h, c, Prepared, choice, WritingBaseline, Done(ControlFailed))
    case WritingBaseline =>
      var m := Manifest(c.request.origin, false);
      if d in h.baselines then Went(h, c, if h.baselines[d] == m then WritingDesired else Done(Refused))
      else
        Went(if choice.ok || choice.tookEffect then h.(baselines := h.baselines[d := m]) else h, c,
             if choice.ok then WritingDesired else Done(ControlFailed))
    case WritingDesired =>
      var m := Manifest(c.request.origin, true);
      if d in h.desired then Went(h, c, if h.desired[d] == m then CreatingNetwork else Done(Refused))
      else
        Went(if choice.ok || choice.tookEffect then h.(desired := h.desired[d := m]) else h, c,
             if choice.ok then CreatingNetwork else Done(ControlFailed))
    case CreatingNetwork =>
      if c.before.network then Went(h, c, WritingConfig(1))
      else Went(if choice.ok || choice.tookEffect then h.(network := true) else h, c, if choice.ok then NotingNetwork else Fail(c))
    case NotingNetwork => Note(h, c, NetworkCreated, choice, WritingConfig(1), Fail(c))
    case WritingConfig(k) =>
      Went(if choice.ok || choice.tookEffect then h.(configs := h.configs + {k}) else h, c,
           if !choice.ok then Fail(c) else if k < 2 then WritingConfig(k + 1) else MarkingStarted)
    case MarkingStarted => Note(h, c, GatewayStarted, choice, ComposingShared, Fail(c))
    case ComposingShared => Went(Compose(h, d, true, choice.compose), c, if choice.ok then VerifyingShared else Fail(c))
    case VerifyingShared =>
      // health, application identities and a new snapshot
      if choice.ok && h.applications == c.before.applications && Shared(h)
        then System(h, Some(c.(record := c.record.(afterGateway := Some(h.gateway.value.id)),
                               pc := WritingApplied(h.gateway.value.id))))
      else Went(h, c, Fail(c))
    case WritingApplied(after) => Note(h, c, PhaseApplied, choice, Done(Applied(after)), Fail(c))
    case ComposingBaseline => Went(Compose(h, d, false, choice.compose), c, if choice.ok then VerifyingBaseline else Fail(c))
    case VerifyingBaseline =>
      Went(h, c, if choice.ok && h.applications == c.before.applications && h.gateway.Some? && !Shared(h)
                    then WritingRecovered else Fail(c))
    case WritingRecovered =>
      Note(h, c, PhaseRecovered, choice, Done(if c.request.mode == Recover then Recovered else ActivationFailed), Fail(c))
    case WritingRecoveryFailed => Note(h, c, PhaseRecoveryFailed, choice, Done(RecoveryFailed), Done(ControlFailed))
    case Done(_) => s
  }

  predicate Idle(s: System) {
    s.controller.None? || s.controller.value.pc.Done?
  }

  function Next(s: System, a: Action): System {
    match a
    case Begin(q) =>
      if Idle(s) then System(s.host, Some(Controller(q, q.digest, Record(q.digest, Prepared, q.email, None), Inspecting))) else s
    case Step(choice) => if s.controller.Some? then StepOf(s, s.controller.value, choice) else s
    case Crash => s.(controller := None)
    case Deploy(gateway, shared) =>
      if !Idle(s) then s
      else
        var h := s.host.(log := s.host.log + [Deployed]);
        s.(host := if gateway
                   then h.(gateway := Some(Gateway(h.nextGateway, ByDeploy(shared))), nextGateway := h.nextGateway + 1)
                   else h.(gateway := None))
    case Drift(gatewayState, applications, network) =>
      s.(host := s.host.(gatewayState := gatewayState, applications := applications, network := network))
  }

  function Run(s: System, actions: seq<Action>): System
    decreases |actions|
  {
    if actions == [] then s else Run(Next(s, actions[0]), actions[1..])
  }

  /** A host this controller has never touched. */
  predicate Start(s: System) {
    && s.controller.None?
    && s.host.journals == map[] && s.host.baselines == map[] && s.host.desired == map[] && s.host.log == []
    && (s.host.gateway.Some? ==> s.host.gateway.value.maker.ByDeploy? && s.host.gateway.value.id < s.host.nextGateway)
  }

  // ---------------------------------------------------------------- what every run keeps

  /** How often `compose` was asked to start the shared gateway of plan `d`. */
  function SharedStarts(log: seq<Effect>, d: Digest): nat
    decreases |log|
  {
    if log == [] then 0
    else SharedStarts(log[..|log| - 1], d) + (if log[|log| - 1] == Composed(d, true) then 1 else 0)
  }

  /** The last journal entry of `d` says applied and nothing has touched the gateway since. */
  predicate StandsApplied(log: seq<Effect>, d: Digest)
    decreases |log|
  {
    log != [] &&
    match log[|log| - 1]
    case Composed(_, _) => false
    case Deployed => false
    case Journaled(e, phase) => if e == d then phase == PhaseApplied else StandsApplied(log[..|log| - 1], d)
  }

  predicate JournalsSound(h: Host) {
    && (forall d :: d in h.journals ==> h.journals[d].before == d && !d.shared)
    && (forall d :: d in h.baselines ==> d in h.journals && h.baselines[d] == Manifest(d.origin, false))
  }

  /** The write-ahead rule: a gateway shared by a plan has that plan's journal and baseline on disk. */
  predicate WrittenAhead(h: Host) {
    h.gateway.Some? && h.gateway.value.maker.ByPlan? ==>
      h.gateway.value.maker.digest in h.journals && h.gateway.value.maker.digest in h.baselines
  }

  ghost predicate StartsCounted(h: Host) {
    forall d: Digest ::
      && SharedStarts(h.log, d) <= 1
      && (d !in h.baselines ==> SharedStarts(h.log, d) == 0)
  }

  ghost predicate AppliedNamesGateway(h: Host) {
    forall d: Digest :: StandsApplied(h.log, d) ==>
      d in h.journals && h.journals[d].phase == PhaseApplied && Shared(h)
      && h.journals[d].afterGateway == Some(h.gateway.value.id)
  }

  predicate Untouched(pc: Pc) {
    pc.WritingJournal? || pc.WritingBaseline? || pc.WritingDesired? || pc.CreatingNetwork? || pc.NotingNetwork?
    || pc.WritingConfig? || pc.MarkingStarted? || pc.ComposingShared?
  }

  predicate Past(pc: Pc) {
    pc.CreatingNetwork? || pc.NotingNetwork? || pc.WritingConfig? || pc.MarkingStarted? || pc.ComposingShared?
    || pc.VerifyingShared? || pc.WritingApplied? || pc.ComposingBaseline? || pc.VerifyingBaseline?
    || pc.WritingRecovered? || pc.WritingRecoveryFailed?
  }

  predicate ControllerSound(h: Host, c: Controller) {
    var d := c.request.digest;
    && (!c.pc.Inspecting? && !c.pc.Done? ==>
          c.before == d && c.record.before == d && d.origin == c.request.origin && !d.shared)
    && (c.pc.WritingJournal? ==> d !in h.journals)
    && (c.pc.WritingBaseline? || c.pc.WritingDesired? ==> d in h.journals)
    && (c.pc.WritingDesired? || Past(c.pc) ==> d in h.journals && d in h.baselines)
    && (Untouched(c.pc) ==> SharedStarts(h.log, d) == 0 && h.gateway.Some? && !Shared(h))
    && (c.pc.WritingApplied? ==> Shared(h) && h.gateway.value.id == c.pc.after && c.record.afterGateway == Some(c.pc.after))
    && (c.pc.WritingRecovered? ==> h.gateway.Some? && !Shared(h))
  }

  ghost predicate HostSound(h: Host) {
    JournalsSound(h) && WrittenAhead(h) && StartsCounted(h) && AppliedNamesGateway(h)
  }

  ghost predicate Inv(s: System) {
    && HostSound(s.host)
    && (s.controller.Some? ==> ControllerSound(s.host, s.controller.value))
  }

  // ---------------------------------------------------------------- preservation

  lemma LogAppend(log: seq<Effect>, e: Effect)
    ensures forall d: Digest :: SharedStarts(log + [e], d) == SharedStarts(log, d) + (if e == Composed(d, true) then 1 else 0)
    ensures forall d: Digest :: StandsApplied(log + [e], d) <==>
      e.Journaled? && (if e.digest == d then e.phase == PhaseApplied else StandsApplied(log, d))
  {
    assert (log + [e])[..|log|] == log;
  }

  lemma JournalKeepsHost(h: Host, d: Digest, r: Record)
    requires HostSound(h) && r.before == d && !d.shared
    requires r.phase == PhaseApplied ==> Shared(h) && r.afterGateway == Some(h.gateway.value.id)
    ensures HostSound(WriteJournal(h, d, r))
  {
    LogAppend(h.log, Journaled(d, r.phase));
  }

  lemma ComposeKeepsHost(h: Host, d: Digest, shared: bool, e: ComposeEffect)
    requires HostSound(h) && d in h.journals && d in h.baselines
    requires shared ==> SharedStarts(h.log, d) == 0
    ensures HostSound(Compose(h, d, shared, e))
  {
    LogAppend(h.log, Composed(d, shared));
  }

  lemma NoteFrame(h: Host, c: Controller, phase: Phase, choice: Choice, next: Pc, otherwise: Pc)
    ensures var s' := Note(h, c, phase, choice, next, otherwise);
      && s'.host.gateway == h.gateway && s'.host.baselines == h.baselines
      && SharedStarts(s'.host.log, c.request.digest) == SharedStarts(h.log, c.request.digest)
      && h.journals.Keys <= s'.host.journals.Keys && (choice.ok ==> c.request.digest in s'.host.journals)
  {
    LogAppend(h.log, Journaled(c.request.digest, phase));
  }

  predicate AtNote(pc: Pc) {
    AtEarlyNote(pc) || AtLateNote(pc)
  }

  predicate AtEarlyNote(pc: Pc) {
    pc.WritingJournal? || pc.NotingNetwork? || pc.MarkingStarted?
  }

  predicate AtLateNote(pc: Pc) {
    pc.WritingApplied? || pc.WritingRecovered? || pc.WritingRecoveryFailed?
  }

  function NotePhase(pc: Pc): Phase {
    match pc
    case WritingJournal => Prepared
    case NotingNetwork => NetworkCreated
    case MarkingStarted => GatewayStarted
    case WritingApplied(_) => PhaseApplied
    case WritingRecovered => PhaseRecovered
    case _ => PhaseRecoveryFailed
  }

  /** A note replaces the journal of its plan, or fails without effect; no other step touches a journal. */
  lemma JournalAfterStep(s: System, choice: Choice)
    requires s.controller.Some?
    ensures var h, c := s.host, s.controller.value; var h' := Next(s, Step(choice)).host;
      if AtNote(c.pc)
      then h' == if choice.ok || choice.tookEffect then WriteJournal(h, c.request.digest, c.record.(phase := NotePhase(c.pc))) else h
      else h'.journals == h.journals
  {
  }

  lemma EarlyNotesKeepController(s: System, choice: Choice)
    requires s.controller.Some? && ControllerSound(s.host, s.controller.value) && AtEarlyNote(s.controller.value.pc)
    ensures var s' := Next(s, Step(choice)); s'.controller.Some? && ControllerSound(s'.host, s'.controller.value)
  {
    var h, c := s.host, s.controller.value;
    match c.pc
    case WritingJournal => NoteFrame(h, c, Prepared, choice, WritingBaseline, Done(ControlFailed));
    case NotingNetwork => NoteFrame(h, c, NetworkCreated, choice, WritingConfig(1), Fail(c));
    case MarkingStarted => NoteFrame(h, c, GatewayStarted, choice, ComposingShared, Fail(c));
  }

  lemma LateNotesKeepController(s: System, choice: Choice)
    requires s.controller.Some? && ControllerSound(s.host, s.controller.value) && AtLateNote(s.controller.value.pc)
    ensures var s' := Next(s, Step(choice)); s'.controller.Some? && ControllerSound(s'.host, s'.controller.value)
  {
    var h, c := s.host, s.controller.value;
    match c.pc
    case WritingApplied(after) => NoteFrame(h, c, PhaseApplied, choice, Done(Applied(after)), Fail(c));
    case WritingRecovered =>
      NoteFrame(h, c, PhaseRecovered, choice, Done(if c.request.mode == Recover then Recovered else ActivationFailed), Fail(c));
    case WritingRecoveryFailed => NoteFrame(h, c, PhaseRecoveryFailed, choice, Done(RecoveryFailed), Done(ControlFailed));
  }

  lemma NoteStepsKeepHost(s: System, choice: Choice)
    requires Inv(s) && s.controller.Some? && AtNote(s.controller.value.pc)
    ensures HostSound(Next(s, Step(choice)).host)
  {
    var h, c := s.host, s.controller.value;
    JournalAfterStep(s, choice);
    JournalKeepsHost(h, c.request.digest, c.record.(phase := NotePhase(c.pc)));
  }

  lemma ComposeStepHost(s: System, choice: Choice)
    requires s.controller.Some? && (s.controller.value.pc.ComposingShared? || s.controller.value.pc.ComposingBaseline?)
    ensures var c := s.controller.value;
      Next(s, Step(choice)).host == Compose(s.host, c.request.digest, c.pc.ComposingShared?, choice.compose)
  {
  }

  lemma ComposeStepsKeepController(s: System, choice: Choice)
    requires s.controller.Some? && ControllerSound(s.host, s.controller.value)
    requires s.controller.value.pc.ComposingShared? || s.controller.value.pc.ComposingBaseline?
    ensures var s' := Next(s, Step(choice)); s'.controller.Some? && ControllerSound(s'.host, s'.controller.value)
  {
  }

  lemma InspectKeepsInv(s: System, choice: Choice)
    requires Inv(s) && s.controller.Some? && s.controller.value.pc.Inspecting?
    ensures Inv(Next(s, Step(choice)))
  {
    var q := s.controller.value.request;
    assert q.digest !in s.host.journals ==> q.digest !in s.host.baselines;
  }

  lemma ManifestStepsKeepInv(s: System, choice: Choice)
    requires Inv(s) && s.controller.Some? && (s.controller.value.pc.WritingBaseline? || s.controller.value.pc.WritingDesired?)
    ensures Inv(Next(s, Step(choice)))
  {
  }

  lemma SetupStepsKeepInv(s: System, choice: Choice)
    requires Inv(s) && s.controller.Some? && (s.controller.value.pc.CreatingNetwork? || s.controller.value.pc.WritingConfig?)
    ensures Inv(Next(s, Step(choice)))
  {
  }

  lemma VerifyStepsKeepInv(s: System, choice: Choice)
    requires Inv(s) && s.controller.Some? && (s.controller.value.pc.VerifyingShared? || s.controller.value.pc.VerifyingBaseline?)
    ensures Inv(Next(s, Step(choice)))
  {
  }

  lemma DoneStaysDone(s: System, choice: Choice)
    requires Inv(s) && s.controller.Some? && s.controller.value.pc.Done?
    ensures Inv(Next(s, Step(choice)))
  {
  }

  lemma StepKeepsInv(s: System, choice: Choice)
    requires Inv(s) && s.controller.Some?
    ensures Inv(Next(s, Step(choice)))
  {
    var pc := s.controller.value.pc;
    if AtNote(pc) {
      NoteStepsKeepHost(s, choice);
      if AtEarlyNote(pc) {
        EarlyNotesKeepController(s, choice);
      } else {
        LateNotesKeepController(s, choice);
      }
    } else if pc.ComposingShared? || pc.ComposingBaseline? {
      ComposeKeepsHost(s.host, s.controller.value.request.digest, pc.ComposingShared?, choice.compose);
      ComposeStepHost(s, choice);
      ComposeStepsKeepController(s, choice);
    } else if pc.Inspecting? {
      InspectKeepsInv(s, choice);
    } else if pc.WritingBaseline? || pc.WritingDesired? {
      ManifestStepsKeepInv(s, choice);
    } else if pc.CreatingNetwork? || pc.WritingConfig? {
      SetupStepsKeepInv(s, choice);
    } else if pc.Done? {
      DoneStaysDone(s, choice);
    } else {
      VerifyStepsKeepInv(s, choice);
    }
  }

  lemma NextKeepsInv(s: System, a: Action)
    requires Inv(s)
    ensures Inv(Next(s, a))
  {
    match a
    case Step(choice) =>
      if s.controller.Some? {
        StepKeepsInv(s, choice);
      }
    case Deploy(_, _) => LogAppend(s.host.log, Deployed);
    case _ =>
  }

  lemma {:induction false} RunKeepsInv(s: System, actions: seq<Action>)
    requires Inv(s)
    ensures Inv(Run(s, actions))
    decreases |actions|
  {
    if actions != [] {
      NextKeepsInv(s, actions[0]);
      RunKeepsInv(Next(s, actions[0]), actions[1..]);
    }
  }

  lemma StartHasInv(s: System)
    requires Start(s)
    ensures Inv(s)
  {
  }

  // ---------------------------------------------------------------- gateway names

  /** An applied journal names the gateway in place exactly when that was made from the plan's own manifest. */
  predicate JournalNamed(h: Host, d: Digest) {
    d in h.journals ==>
      var r := h.journals[d];
      && (r.afterGateway.Some? ==> r.afterGateway.value < h.nextGateway)
      && (r.phase == PhaseApplied ==>
            r.afterGateway.Some?
            && (h.gateway.Some? ==> (r.afterGateway.value == h.gateway.value.id <==> h.gateway.value.maker == ByPlan(d, true))))
  }

  ghost predicate HostNamed(h: Host) {
    && (h.gateway.Some? ==> h.gateway.value.id < h.nextGateway)
    && forall d: Digest :: JournalNamed(h, d)
  }

  predicate Active(pc: Pc) {
    !pc.Inspecting? && !pc.Done?
  }

  predicate ControllerNamed(h: Host, c: Controller) {
    var d := c.request.digest;
    && (c.record.afterGateway.Some? ==> c.record.afterGateway.value < h.nextGateway)
    && (Untouched(c.pc) && d in h.journals ==> h.journals[d].phase != PhaseApplied)
    && (c.pc.VerifyingShared? && Shared(h) ==> h.gateway.value.maker == ByPlan(d, true))
    && (c.pc.WritingApplied? ==> h.gateway.Some? && h.gateway.value.maker == ByPlan(d, true))
    && (Active(c.pc) ==> c.record.email == c.request.email && (d in h.journals ==> h.journals[d].email == c.request.email))
  }

  ghost predicate Named(s: System) {
    HostNamed(s.host) && (s.controller.Some? ==> ControllerNamed(s.host, s.controller.value))
  }

  lemma JournalKeepsNames(h: Host, d: Digest, r: Record)
    requires HostNamed(h)
    requires r.afterGateway.Some? ==> r.afterGateway.value < h.nextGateway
    requires r.phase == PhaseApplied ==>
      h.gateway.Some? && h.gateway.value.maker == ByPlan(d, true) && r.afterGateway == Some(h.gateway.value.id)
    ensures HostNamed(WriteJournal(h, d, r))
  {
    forall e: Digest ensures JournalNamed(WriteJournal(h, d, r), e) {
      assert JournalNamed(h, e);
    }
  }

  lemma ComposeKeepsNames(h: Host, d: Digest, shared: bool, e: ComposeEffect)
    requires HostNamed(h) && (shared && d in h.journals ==> h.journals[d].phase != PhaseApplied)
    ensures HostNamed(Compose(h, d, shared, e))
  {
    forall x: Digest ensures JournalNamed(Compose(h, d, shared, e), x) {
      assert JournalNamed(h, x);
    }
  }

  lemma NotesKeepNames(s: System, choice: Choice)
    requires Inv(s) && Named(s) && s.controller.Some? && AtNote(s.controller.value.pc)
    ensures HostNamed(Next(s, Step(choice)).host)
  {
    var h, c := s.host, s.controller.value;
    JournalAfterStep(s, choice);
    JournalKeepsNames(h, c.request.digest, c.record.(phase := NotePhase(c.pc)));
  }

  lemma OtherStepsKeepNames(s: System, choice: Choice)
    requires Named(s) && s.controller.Some? && !AtNote(s.controller.value.pc)
    ensures HostNamed(Next(s, Step(choice)).host)
  {
    var h, c := s.host, s.controller.value;
    if c.pc.ComposingShared? || c.pc.ComposingBaseline? {
      ComposeKeepsNames(h, c.request.digest, c.pc.ComposingShared?, choice.compose);
    } else {
      forall d: Digest ensures JournalNamed(Next(s, Step(choice)).host, d) {
        assert JournalNamed(h, d);
      }
    }
  }

  ghost predicate Handled(s: System) {
    s.controller.Some? && ControllerSound(s.host, s.controller.value) && ControllerNamed(s.host, s.controller.value)
  }

  lemma NotesKeepController(s: System, choice: Choice)
    requires Handled(s) && AtNote(s.controller.value.pc)
    ensures var s' := Next(s, Step(choice)); s'.controller.Some? && ControllerNamed(s'.host, s'.controller.value)
  {
    JournalAfterStep(s, choice);
  }

  lemma ComposesKeepController(s: System, choice: Choice)
    requires Handled(s) && (s.controller.value.pc.ComposingShared? || s.controller.value.pc.ComposingBaseline?)
    ensures var s' := Next(s, Step(choice)); s'.controller.Some? && ControllerNamed(s'.host, s'.controller.value)
  {
  }

  lemma InspectKeepsController(s: System, choice: Choice)
    requires Handled(s) && s.controller.value.pc.Inspecting? && JournalNamed(s.host, s.controller.value.request.digest)
    ensures var s' := Next(s, Step(choice)); s'.controller.Some? && ControllerNamed(s'.host, s'.controller.value)
  {
  }

  lemma OthersKeepController(s: System, choice: Choice)
    requires Handled(s) && !AtNote(s.controller.value.pc) && !s.controller.value.pc.Inspecting?
    requires !s.controller.value.pc.ComposingShared? && !s.controller.value.pc.ComposingBaseline?
    requires s.host.gateway.Some? ==> s.host.gateway.value.id < s.host.nextGateway
    ensures var s' := Next(s, Step(choice)); s'.controller.Some? && ControllerNamed(s'.host, s'.controller.value)
  {
    JournalAfterStep(s, choice);
  }

  lemma StepKeepsController(s: System, choice: Choice)
    requires Handled(s) && HostNamed(s.host)
    ensures var s' := Next(s, Step(choice)); s'.controller.Some? && ControllerNamed(s'.host, s'.controller.value)
  {
    var pc := s.controller.value.pc;
    if AtNote(pc) {
      NotesKeepController(s, choice);
    } else if pc.ComposingShared? || pc.ComposingBaseline? {
      ComposesKeepController(s, choice);
    } else if pc.Inspecting? {
      InspectKeepsController(s, choice);
    } else {
      OthersKeepController(s, choice);
    }
  }

  lemma NextKeepsNamed(s: System, a: Action)
    requires Inv(s) && Named(s)
    ensures Named(Next(s, a))
  {
    match a
    case Step(choice) =>
      if s.controller.Some? {
        var pc := s.controller.value.pc;
        if AtNote(pc) {
          NotesKeepNames(s, choice);
        } else {
          OtherStepsKeepNames(s, choice);
        }
        StepKeepsController(s, choice);
      }
    case _ =>
      forall d: Digest ensures JournalNamed(Next(s, a).host, d) {
        assert JournalNamed(s.host, d);
      }
  }

  lemma {:induction false} RunKeepsNamed(s: System, actions: seq<Action>)
    requires Inv(s) && Named(s)
    ensures Inv(Run(s, actions)) && Named(Run(s, actions))
    decreases |actions|
  {
    if actions != [] {
      NextKeepsInv(s, actions[0]);
      NextKeepsNamed(s, actions[0]);
      RunKeepsNamed(Next(s, actions[0]), actions[1..]);
    }
  }

  lemma HistoryIsNamed(s0: System, actions: seq<Action>)
    requires Start(s0)
    ensures Inv(Run(s0, actions)) && Named(Run(s0, actions))
  {
    StartHasInv(s0);
    RunKeepsNamed(s0, actions);
  }

  // ---------------------------------------------------------------- theorems

  /** The request that recovers a journaled plan. */
  function RecoverRequest(h: Host, d: Digest): Request
    requires d in h.journals
  {
    Request(Recover, d, d.origin, h.journals[d].email)
  }

  /**
   In every state of every history of runs, crashes and foreign deploys: if the gateway is the shared
   one some plan started, that plan's journal and its correct baseline manifest are on disk, and the
   file checks of `recover` pass.
   */
  lemma SharedGatewayIsRecoverable(s0: System, actions: seq<Action>)
    requires Start(s0)
    ensures var h := Run(s0, actions).host;
      Shared(h) && h.gateway.value.maker.ByPlan? ==>
        var d := h.gateway.value.maker.digest;
        d in h.journals && RecoveryReady(h, RecoverRequest(h, d))
  {
    StartHasInv(s0);
    RunKeepsInv(s0, actions);
  }

  /**
   Exactly when a journaled plan can be recovered: once its baseline manifest is written. Before that
   the plan has never started a gateway, so there is nothing to recover from.
   */
  lemma RecoverableOnceBaselineWritten(s0: System, actions: seq<Action>, d: Digest)
    requires Start(s0) && d in Run(s0, actions).host.journals
    ensures var h := Run(s0, actions).host;
      && (RecoveryReady(h, RecoverRequest(h, d)) <==> d in h.baselines)
      && (d !in h.baselines ==> SharedStarts(h.log, d) == 0
                                && (h.gateway.Some? && h.gateway.value.maker.ByPlan? ==> h.gateway.value.maker.digest != d))
  {
    StartHasInv(s0);
    RunKeepsInv(s0, actions);
  }

  const OK := Choice(true, true, Made)

  function Iterate<T>(f: T -> T, x: T, n: nat): T {
    if n == 0 then x else f(Iterate(f, x, n - 1))
  }

  lemma {:induction false} IterateAdds<T>(f: T -> T, x: T, m: nat, n: nat)
    ensures Iterate(f, x, m + n) == Iterate(f, Iterate(f, x, m), n)
    decreases n
  {
    if n > 0 {
      IterateAdds(f, x, m, n - 1);
      assert m + n - 1 == m + (n - 1);
    }
  }

  function SucceedOnce(s: System): System {
    Next(s, Step(OK))
  }

  /** `n` steps that all succeed. */
  function Succeed(s: System, n: nat): System {
    Iterate(SucceedOnce, s, n)
  }

  function Recovering(h: Host, d: Digest, e: ComposeEffect): Host
    requires d in h.journals
  {
    WriteJournal(Compose(h, d, false, e), d, h.journals[d].(phase := PhaseRecovered))
  }

  /** The recover run: inspect, compose, verify, note. */
  function RecoverRun(s: System, q: Request, inspect: Choice, compose: Choice, check: Choice, note: Choice): System {
    Next(Next(Next(Next(Next(s, Begin(q)), Step(inspect)), Step(compose)), Step(check)), Step(note))
  }

  /**
   A recover run on a ready plan whose commands all succeed ends recovered, with the journal saying so
   and nothing else changed, exactly when the compose left a gateway that is not shared, be it new or
   one that was there.
   */
  lemma RecoveryCompletes(s: System, q: Request, inspect: Choice, compose: Choice, check: Choice, note: Choice)
    requires Idle(s) && q.mode == Recover && RecoveryReady(s.host, q) && s.host.applications == q.digest.applications
    requires inspect.ok && compose.ok && check.ok && note.ok
    ensures var s' := RecoverRun(s, q, inspect, compose, check, note);
      var left := Compose(s.host, q.digest, false, compose.compose);
      && s'.controller.Some?
      && (s'.controller.value.pc == Done(Recovered) <==> left.gateway.Some? && !Shared(left))
      && (left.gateway.Some? && !Shared(left) ==>
            && s'.host == Recovering(s.host, q.digest, compose.compose)
            && s'.host.gateway == left.gateway && !Shared(s'.host)
            && q.digest in s'.host.journals && s'.host.journals[q.digest].phase == PhaseRecovered)
  {
    var s2 := Next(Next(s, Begin(q)), Step(inspect));
    assert s2.controller.value.pc.ComposingBaseline?;
    var s3 := Next(s2, Step(compose));
    assert s3.controller.value.pc.VerifyingBaseline?;
    var s4 := Next(s3, Step(check));
    assert s4.controller.value.pc == if s3.host.gateway.Some? && !Shared(s3.host) then WritingRecovered else WritingRecoveryFailed;
  }

  predicate Fresh(h: Host, q: Request) {
    && q.mode == Apply && h.gateway.Some? && !Shared(h) && q.digest == Observed(h, q.origin)
    && q.digest !in h.journals && q.digest !in h.baselines && q.digest !in h.desired
  }

  /** The host after a successful activation. */
  predicate Activated(h: Host, h': Host, q: Request) {
    && h'.gateway == Some(Gateway(h.nextGateway, ByPlan(q.digest, true))) && h'.nextGateway == h.nextGateway + 1
    && h'.journals == h.journals[q.digest := Record(q.digest, PhaseApplied, q.email, Some(h.nextGateway))]
    && h'.baselines == h.baselines[q.digest := Manifest(q.origin, false)]
    && h'.desired == h.desired[q.digest := Manifest(q.origin, true)]
    && h'.applications == h.applications && h'.network && h'.gatewayState == h.gatewayState
  }

  /** The successful steps up to the first configuration file: one more when the network is created. */
  function HeadSteps(h: Host): nat {
    if h.network then 5 else 6
  }

  /** Steps from `Begin` on that all succeed end with the gateway of a fresh plan shared. */
  lemma ActivationCompletes(s: System, q: Request)
    requires Idle(s) && Fresh(s.host, q)
    ensures Completes(s, Succeed(Next(s, Begin(q)), HeadSteps(s.host) + 6), q)
  {
    ActivationHead(s, q);
    ActivationFrom(s, Next(s, Begin(q)), HeadSteps(s.host), q);
  }

  lemma ActivationFrom(s: System, s1: System, n: nat, q: Request)
    requires Prepares(s, Succeed(s1, n), q)
    ensures Completes(s, Succeed(s1, n + 6), q)
  {
    ActivationEnds(s, Succeed(s1, n), q);
    SucceedAdds(s1, n, 6);
  }

  /** The run reports the new gateway, and the host has it. */
  predicate Completes(s: System, s': System, q: Request) {
    && s'.controller.Some? && s'.controller.value.pc == Done(Applied(s.host.nextGateway))
    && Activated(s.host, s'.host, q)
  }

  lemma ActivationEnds(s: System, t: System, q: Request)
    requires Prepares(s, t, q)
    ensures Completes(s, Succeed(t, 6), q)
  {
    ActivationTail(q, t);
  }

  /** The controller is about to write its configuration; files are written and the gateway untouched. */
  predicate Prepares(s: System, t: System, q: Request) {
    && t.controller.Some? && t.controller.value.pc == WritingConfig(1)
    && t.controller.value.request == q && t.controller.value.before == q.digest
    && t.controller.value.record == Record(q.digest, t.controller.value.record.phase, q.email, None)
    && t.host.gateway == s.host.gateway && t.host.gatewayState == s.host.gatewayState && t.host.nextGateway == s.host.nextGateway
    && t.host.network && t.host.applications == s.host.applications == q.digest.applications
    && t.host.journals == s.host.journals[q.digest := t.controller.value.record]
    && t.host.baselines == s.host.baselines[q.digest := Manifest(q.origin, false)]
    && t.host.desired == s.host.desired[q.digest := Manifest(q.origin, true)]
  }

  lemma ActivationHead(s: System, q: Request)
    requires Idle(s) && Fresh(s.host, q)
    ensures Prepares(s, Succeed(Next(s, Begin(q)), HeadSteps(s.host)), q)
  {
    var s1 := Next(s, Begin(q));
    var s2 := Next(s1, Step(OK));
    assert s2.controller.value.pc.WritingJournal?;
    var s3 := Next(s2, Step(OK));
    var s4 := Next(s3, Step(OK));
    assert s4.controller.value.pc.WritingDesired?;
    var s5 := Next(s4, Step(OK));
    var s6 := Next(s5, Step(OK));
    assert Succeed(s1, 0) == s1 && Succeed(s1, 1) == s2;
    assert Succeed(s1, 2) == s3 && Succeed(s1, 3) == s4;
    assert Succeed(s1, 4) == s5 && Succeed(s1, 5) == s6;
    if !s.host.network {
      assert s6.controller.value.pc.NotingNetwork?;
    }
  }

  lemma ActivationTail(q: Request, t: System)
    requires t.controller.Some? && t.controller.value.pc == WritingConfig(1)
    requires t.controller.value.request == q && t.controller.value.before == q.digest
    requires t.controller.value.record == Record(q.digest, t.controller.value.record.phase, q.email, None)
    requires t.host.applications == q.digest.applications
    ensures var s' := Succeed(t, 6);
      && s'.controller.Some? && s'.controller.value.pc == Done(Applied(t.host.nextGateway))
      && s'.host.gateway == Some(Gateway(t.host.nextGateway, ByPlan(q.digest, true))) && s'.host.nextGateway == t.host.nextGateway + 1
      && s'.host.journals == t.host.journals[q.digest := Record(q.digest, PhaseApplied, q.email, Some(t.host.nextGateway))]
      && s'.host.baselines == t.host.baselines && s'.host.desired == t.host.desired
      && s'.host.applications == t.host.applications && s'.host.network == t.host.network
      && s'.host.gatewayState == t.host.gatewayState
  {
    var t1 := Next(t, Step(OK));
    var t2 := Next(t1, Step(OK));
    assert t2.controller.value.pc.MarkingStarted?;
    var t3 := Next(t2, Step(OK));
    var t4 := Next(t3, Step(OK));
    assert t4.controller.value.pc.VerifyingShared?;
    var t5 := Next(t4, Step(OK));
    assert t5.controller.value.pc == WritingApplied(t.host.nextGateway);
    assert Succeed(t, 0) == t && Succeed(t, 1) == t1;
    assert Succeed(t, 2) == t2 && Succeed(t, 3) == t3;
    assert Succeed(t, 4) == t4 && Succeed(t, 5) == t5;
  }

  lemma SucceedAdds(s: System, m: nat, n: nat)
    ensures Succeed(s, m + n) == Succeed(Succeed(s, m), n)
  {
    IterateAdds(SucceedOnce, s, m, n);
  }

  /** What a run reports about itself is true of the host at that moment. */
  lemma OutcomesAreTrue(s0: System, actions: seq<Action>, choice: Choice)
    requires Start(s0) && !Idle(Run(s0, actions))
    ensures var s' := Next(Run(s0, actions), Step(choice)); var h, c := s'.host, s'.controller.value;
      && (c.pc.Done? && c.pc.outcome.Applied? ==>
            && Shared(h) && h.gateway.value.id == c.pc.outcome.gateway
            && c.request.digest in h.journals && h.journals[c.request.digest].phase == PhaseApplied
            && h.journals[c.request.digest].afterGateway == Some(c.pc.outcome.gateway))
      && (c.pc == Done(ActivationFailed) ==> h.gateway.Some? && !Shared(h))
      && (c.pc == Done(Recovered) ==>
            && h.gateway.Some? && !Shared(h)
            && c.request.digest in h.journals && h.journals[c.request.digest].phase == PhaseRecovered)
      && (c.pc == Done(RecoveryFailed) ==>
            c.request.digest in h.journals && h.journals[c.request.digest].phase == PhaseRecoveryFailed)
  {
    StartHasInv(s0);
    RunKeepsInv(s0, actions);
    OutcomeOfStep(Run(s0, actions), choice);
  }

  lemma OutcomeOfStep(s: System, choice: Choice)
    requires !Idle(s) && ControllerSound(s.host, s.controller.value)
    ensures var s' := Next(s, Step(choice)); var h, c := s'.host, s'.controller.value;
      && (c.pc.Done? && c.pc.outcome.Applied? ==>
            && Shared(h) && h.gateway.value.id == c.pc.outcome.gateway
            && c.request.digest in h.journals && h.journals[c.request.digest].phase == PhaseApplied
            && h.journals[c.request.digest].afterGateway == Some(c.pc.outcome.gateway))
      && (c.pc == Done(ActivationFailed) ==> h.gateway.Some? && !Shared(h))
      && (c.pc == Done(Recovered) ==>
            && h.gateway.Some? && !Shared(h)
            && c.request.digest in h.journals && h.journals[c.request.digest].phase == PhaseRecovered)
      && (c.pc == Done(RecoveryFailed) ==>
            c.request.digest in h.journals && h.journals[c.request.digest].phase == PhaseRecoveryFailed)
  {
  }

  // ---------------------------------------------------------------- why a run ended as it did

  /**
   The request is already satisfied: its journal says applied and names the shared gateway in place, with the
   planned applications; or, without such a journal, the planned state is the one observed and shared.
   */
  predicate Stands(h: Host, q: Request)
    requires h.gateway.Some?
  {
    var d := q.digest;
    && h.gateway.value.maker.shared
    && (d in h.journals ==> h.journals[d].before == d && d.origin == q.origin && h.journals[d].email == q.email)
    && (if d in h.journals && h.journals[d].phase == PhaseApplied && h.journals[d].afterGateway == Some(h.gateway.value.id)
        then h.applications == d.applications
        else d == Snapshot(q.origin, h.gateway.value.id, h.gatewayState, true, h.applications, h.network))
  }

  /**
   What a run may touch is decided by its inspection, on the fields it observes: an apply goes ahead
   exactly on the planned, unshared and unjournaled state, a recover exactly on a matching journal with
   its baseline manifest and the planned applications. The inspection itself changes nothing.
   */
  lemma InspectionDecides(s: System, q: Request, choice: Choice)
    requires Idle(s)
    ensures var s' := Next(Next(s, Begin(q)), Step(choice)); var h, d := s.host, q.digest;
      && s'.host == h && s'.controller.Some? && s'.controller.value.request == q
      && (q.mode == Apply ==>
            (s'.controller.value.pc == WritingJournal <==>
               && choice.ok && h.gateway.Some? && !h.gateway.value.maker.shared
               && d == Snapshot(q.origin, h.gateway.value.id, h.gatewayState, false, h.applications, h.network)
               && d !in h.journals)
            && (s'.controller.value.pc == Done(AlreadyActive) <==> choice.ok && h.gateway.Some? && Stands(h, q))
            && (s'.controller.value.pc == WritingJournal || s'.controller.value.pc == Done(AlreadyActive)
                || s'.controller.value.pc == Done(Refused)))
      && (q.mode == Recover ==>
            (s'.controller.value.pc == ComposingBaseline <==>
               && choice.ok && d in h.journals && h.journals[d].before == d && d.origin == q.origin
               && h.journals[d].email == q.email
               && d in h.baselines && h.baselines[d] == Manifest(q.origin, false) && h.applications == d.applications)
            && (s'.controller.value.pc != ComposingBaseline ==> s'.controller.value.pc == Done(Refused)))
      && (q.mode == Plan ==>
            s'.controller.value.pc
            == if choice.ok && h.gateway.Some?
               then Done(Planned(Snapshot(q.origin, h.gateway.value.id, h.gatewayState, h.gateway.value.maker.shared, h.applications, h.network)))
               else Done(Refused))
  {
  }

  /** What can lead to a verdict: a check of the shared gateway, a check of the baseline, or a failure before any start. */
  datatype Verdict = SharedChecked(gateway: Id) | BaselineChecked | FailedEarly

  /** The step that decides: the check was answered ok, with the planned applications and the right gateway in place. */
  predicate Decides(v: Verdict, s: System, q: Request, choice: Choice) {
    && s.controller.Some? && s.controller.value.request == q
    && match v
       case SharedChecked(g) =>
         && s.controller.value.pc == VerifyingShared && choice.ok && s.host.applications == q.digest.applications
         && s.host.gateway.Some? && s.host.gateway.value.maker.shared && s.host.gateway.value.id == g
       case BaselineChecked =>
         && s.controller.value.pc == VerifyingBaseline && choice.ok && s.host.applications == q.digest.applications
         && s.host.gateway.Some? && !s.host.gateway.value.maker.shared
       case FailedEarly =>
         !choice.ok && (s.controller.value.pc.CreatingNetwork? || s.controller.value.pc.NotingNetwork? || s.controller.value.pc.WritingConfig?)
  }

  /** What is left of the run after the deciding step. */
  predicate Follows(v: Verdict, s: System, q: Request) {
    && s.controller.Some? && s.controller.value.request == q
    && match v
       case SharedChecked(g) => s.controller.value.pc == WritingApplied(g) || s.controller.value.pc == Done(Applied(g))
       case BaselineChecked =>
         s.controller.value.pc == WritingRecovered || s.controller.value.pc == Done(if q.mode == Recover then Recovered else ActivationFailed)
       case FailedEarly => s.controller.value.pc == Done(ActivationFailed)
  }

  /** Action `k` decided, and nothing but noting the verdict has happened in the run since. */
  predicate DecidedAt(s0: System, actions: seq<Action>, k: nat, v: Verdict, q: Request) {
    && k < |actions| && actions[k].Step? && Decides(v, Run(s0, actions[..k]), q, actions[k].choice)
    && forall j :: k < j <= |actions| ==> Follows(v, Run(s0, actions[..j]), q)
  }

  lemma {:induction false} RunSnoc(s: System, actions: seq<Action>, a: Action)
    ensures Run(s, actions + [a]) == Next(Run(s, actions), a)
    decreases |actions|
  {
    if actions == [] {
      assert [a][1..] == [];
      assert actions + [a] == [a];
    } else {
      assert (actions + [a])[1..] == actions[1..] + [a];
      RunSnoc(Next(s, actions[0]), actions[1..], a);
    }
  }

  predicate Concluding(pc: Pc) {
    pc.WritingApplied? || pc.WritingRecovered? || (pc.Done? && (pc.outcome.Applied? || pc.outcome == Recovered || pc.outcome == ActivationFailed))
  }

  /** A run gets into its conclusion only by a deciding step. */
  lemma ConclusionStarts(s: System, a: Action)
    requires s.controller.Some? ==> ControllerSound(s.host, s.controller.value)
    requires Next(s, a).controller.Some? && Concluding(Next(s, a).controller.value.pc)
    requires !(s.controller.Some? && Concluding(s.controller.value.pc))
    ensures a.Step? && exists v :: Decides(v, s, Next(s, a).controller.value.request, a.choice) && Follows(v, Next(s, a), Next(s, a).controller.value.request)
  {
    var c := s.controller.value;
    var q := c.request;
    if c.pc == VerifyingShared {
      assert Decides(SharedChecked(s.host.gateway.value.id), s, q, a.choice);
    } else if c.pc == VerifyingBaseline {
      assert Decides(BaselineChecked, s, q, a.choice);
    } else {
      assert Decides(FailedEarly, s, q, a.choice);
    }
  }

  lemma ConclusionGoesOn(s: System, a: Action, v: Verdict, q: Request)
    requires Follows(v, s, q) && Next(s, a).controller.Some? && Concluding(Next(s, a).controller.value.pc)
    ensures Follows(v, Next(s, a), q)
  {
  }

  lemma FollowsNow(s0: System, actions: seq<Action>, k: nat, v: Verdict, q: Request)
    requires DecidedAt(s0, actions, k, v, q)
    ensures Follows(v, Run(s0, actions), q)
  {
    assert actions[..|actions|] == actions;
  }

  lemma DecisionStands(s0: System, actions: seq<Action>, a: Action, k: nat, v: Verdict, q: Request)
    requires DecidedAt(s0, actions, k, v, q) && Follows(v, Run(s0, actions + [a]), q)
    ensures DecidedAt(s0, actions + [a], k, v, q)
  {
    var longer := actions + [a];
    assert longer[..|longer|] == longer;
    forall j | 0 <= j <= |actions| ensures longer[..j] == actions[..j] {
    }
    forall j | k < j <= |longer| ensures Follows(v, Run(s0, longer[..j]), q) {
      if j <= |actions| {
        assert Follows(v, Run(s0, actions[..j]), q);
      }
    }
  }

  lemma DecisionFalls(s0: System, actions: seq<Action>, a: Action, v: Verdict, q: Request)
    requires a.Step? && Decides(v, Run(s0, actions), q, a.choice) && Follows(v, Run(s0, actions + [a]), q)
    ensures DecidedAt(s0, actions + [a], |actions|, v, q)
  {
    var longer := actions + [a];
    assert longer[..|actions|] == actions && longer[..|longer|] == longer;
  }

  lemma {:induction false} ConclusionWasDecided(s0: System, actions: seq<Action>)
    requires Start(s0) && Run(s0, actions).controller.Some? && Concluding(Run(s0, actions).controller.value.pc)
    ensures exists v, k: nat :: DecidedAt(s0, actions, k, v, Run(s0, actions).controller.value.request)
    decreases |actions|
  {
    var earlier, last := actions[..|actions| - 1], actions[|actions| - 1];
    var s := Run(s0, earlier);
    assert actions == earlier + [last];
    RunSnoc(s0, earlier, last);
    if s.controller.Some? && Concluding(s.controller.value.pc) {
      var q := s.controller.value.request;
      ConclusionWasDecided(s0, earlier);
      var v, k: nat :| DecidedAt(s0, earlier, k, v, q);
      FollowsNow(s0, earlier, k, v, q);
      ConclusionGoesOn(s, last, v, q);
      DecisionStands(s0, earlier, last, k, v, q);
    } else {
      StartHasInv(s0);
      RunKeepsInv(s0, earlier);
      ConclusionStarts(s, last);
      var q := Next(s, last).controller.value.request;
      var v :| Decides(v, s, q, last.choice) && Follows(v, Next(s, last), q);
      DecisionFalls(s0, earlier, last, v, q);
    }
  }

  /**
   In every history: a run that ends applied had its shared gateway checked, healthy and with the planned
   applications, and noted nothing else since; one that ends recovered had the baseline checked like
   that; one that ends activation-failed had the baseline checked or had failed before any start.
   */
  lemma VerdictsWereChecked(s0: System, actions: seq<Action>)
    requires Start(s0) && Run(s0, actions).controller.Some?
    ensures var c := Run(s0, actions).controller.value;
      && (c.pc.Done? && c.pc.outcome.Applied? ==>
            exists k: nat :: DecidedAt(s0, actions, k, SharedChecked(c.pc.outcome.gateway), c.request))
      && (c.pc == Done(Recovered) ==> exists k: nat :: DecidedAt(s0, actions, k, BaselineChecked, c.request))
      && (c.pc == Done(ActivationFailed) ==>
            exists k: nat :: DecidedAt(s0, actions, k, BaselineChecked, c.request) || DecidedAt(s0, actions, k, FailedEarly, c.request))
  {
    var c := Run(s0, actions).controller.value;
    if Concluding(c.pc) {
      ConclusionWasDecided(s0, actions);
      var v, k: nat :| DecidedAt(s0, actions, k, v, c.request);
      FollowsNow(s0, actions, k, v, c.request);
    }
  }

  /** The run is taking its shared gateway down again. */
  predicate RollsBack(s: System) {
    s.controller.Some? ==>
      var pc := s.controller.value.pc;
      || pc == ComposingBaseline || pc == VerifyingBaseline || pc == WritingRecovered || pc == WritingRecoveryFailed
      || pc == Done(ActivationFailed) || pc == Done(Recovered) || pc == Done(RecoveryFailed) || pc == Done(ControlFailed)
  }

  lemma {:induction false} RollbackGoesOn(s: System, actions: seq<Action>)
    requires RollsBack(s) && forall k :: 0 <= k < |actions| ==> !actions[k].Begin?
    ensures RollsBack(Run(s, actions))
    decreases |actions|
  {
    if actions != [] {
      RollbackGoesOn(Next(s, actions[0]), actions[1..]);
    }
  }

  /**
   In every history: when the check of the shared gateway does not pass, be it unhealthy, with other
   applications or not shared, the next effect is the baseline compose, and whatever happens short of a
   new run, this one does not end applied.
   */
  lemma FailedCheckRollsBack(s0: System, actions: seq<Action>, check: Choice, compose: Choice, more: seq<Action>)
    requires Start(s0) && Run(s0, actions).controller.Some? && Run(s0, actions).controller.value.pc == VerifyingShared
    requires var h := Run(s0, actions).host;
      !(check.ok && h.applications == Run(s0, actions).controller.value.request.digest.applications && Shared(h))
    requires forall k :: 0 <= k < |more| ==> !more[k].Begin?
    ensures var s := Run(s0, actions); var failed := Next(s, Step(check)); var end := Run(failed, more);
      && failed.host == s.host
      && Next(failed, Step(compose)).host == Compose(s.host, s.controller.value.request.digest, false, compose.compose)
      && (end.controller.Some? ==> !end.controller.value.pc.WritingApplied? && !(end.controller.value.pc.Done? && end.controller.value.pc.outcome.Applied?))
  {
    StartHasInv(s0);
    RunKeepsInv(s0, actions);
    RollbackGoesOn(Next(Run(s0, actions), Step(check)), more);
  }

  /** Over any history the shared gateway of a plan is started at most once. */
  lemma StartedAtMostOnce(s0: System, actions: seq<Action>, d: Digest)
    requires Start(s0)
    ensures SharedStarts(Run(s0, actions).host.log, d) <= 1
  {
    StartHasInv(s0);
    RunKeepsInv(s0, actions);
  }

  /**
   In every history and for every plan whose journal says applied: the journal names the gateway in
   place, and that one is shared, exactly when its compose labels say it was made from this plan's
   shared manifest.
   */
  lemma AppliedNamesGatewayIff(s0: System, actions: seq<Action>, d: Digest)
    requires Start(s0) && d in Run(s0, actions).host.journals
    requires Run(s0, actions).host.journals[d].phase == PhaseApplied
    ensures var h := Run(s0, actions).host;
      Shared(h) && h.journals[d].afterGateway == Some(h.gateway.value.id)
      <==> h.gateway.Some? && h.gateway.value.maker == ByPlan(d, true)
  {
    HistoryIsNamed(s0, actions);
    assert JournalNamed(Run(s0, actions).host, d);
  }

  /** In particular it does so for as long as no compose and no deploy follows the journal entry. */
  lemma AppliedHoldsUntilTouched(s0: System, actions: seq<Action>, d: Digest)
    requires Start(s0) && StandsApplied(Run(s0, actions).host.log, d)
    ensures var h := Run(s0, actions).host;
      && d in h.journals && h.journals[d].phase == PhaseApplied && Shared(h)
      && h.journals[d].afterGateway == Some(h.gateway.value.id) && h.gateway.value.maker == ByPlan(d, true)
  {
    HistoryIsNamed(s0, actions);
    AppliedNamesGatewayIff(s0, actions, d);
  }

  // ---------------------------------------------------------------- applying again

  /** No action replaces or removes the gateway. */
  predicate GatewayKept(s: System, actions: seq<Action>)
    decreases |actions|
  {
    actions == [] || (Next(s, actions[0]).host.gateway == s.host.gateway && GatewayKept(Next(s, actions[0]), actions[1..]))
  }

  /** Nobody asks to recover plan `d`. */
  predicate NotRecovered(actions: seq<Action>, d: Digest) {
    forall k :: 0 <= k < |actions| && actions[k].Begin? ==> !(actions[k].request.mode == Recover && actions[k].request.digest == d)
  }

  /** A plan was applied and its gateway is in place. */
  predicate AppliedBy(s: System, q: Request) {
    && q.digest.origin == q.origin && !q.digest.shared
    && s.host.gateway.Some? && s.host.gateway.value.maker == ByPlan(q.digest, true)
    && q.digest in s.host.journals && s.host.journals[q.digest].email == q.email
  }

  lemma NextKeepsEmail(s: System, a: Action, d: Digest)
    requires d in s.host.journals && (s.controller.Some? ==> ControllerNamed(s.host, s.controller.value))
    ensures d in Next(s, a).host.journals && Next(s, a).host.journals[d].email == s.host.journals[d].email
  {
    if a.Step? && s.controller.Some? {
      JournalAfterStep(s, a.choice);
    }
  }

  lemma {:induction false} KeptGatewayStaysApplied(s: System, actions: seq<Action>, q: Request)
    requires Inv(s) && Named(s) && AppliedBy(s, q) && GatewayKept(s, actions)
    ensures AppliedBy(Run(s, actions), q)
    decreases |actions|
  {
    if actions != [] {
      NextKeepsInv(s, actions[0]);
      NextKeepsNamed(s, actions[0]);
      NextKeepsEmail(s, actions[0], q.digest);
      KeptGatewayStaysApplied(Next(s, actions[0]), actions[1..], q);
    }
  }

  /** The controller, if any, is not working on the journal of `d`. */
  predicate Elsewhere(s: System, d: Digest) {
    s.controller.Some? ==>
      var c := s.controller.value;
      c.pc.Done? || c.request.digest != d || (c.pc.Inspecting? && c.request.mode != Recover)
  }

  lemma NextLeavesJournal(s: System, a: Action, d: Digest)
    requires Elsewhere(s, d) && d in s.host.journals && NotRecovered([a], d)
    ensures Elsewhere(Next(s, a), d) && d in Next(s, a).host.journals
    ensures Next(s, a).host.journals[d] == s.host.journals[d]
  {
    assert a.Begin? ==> [a][0].request == a.request;
  }

  lemma {:induction false} JournalStays(s: System, actions: seq<Action>, d: Digest)
    requires Elsewhere(s, d) && d in s.host.journals && NotRecovered(actions, d)
    ensures d in Run(s, actions).host.journals && Run(s, actions).host.journals[d] == s.host.journals[d]
    decreases |actions|
  {
    if actions != [] {
      assert NotRecovered([actions[0]], d) && NotRecovered(actions[1..], d);
      NextLeavesJournal(s, actions[0], d);
      JournalStays(Next(s, actions[0]), actions[1..], d);
    }
  }

  function Steps(choices: seq<Choice>): (r: seq<Action>)
    ensures |r| == |choices| && forall k :: 0 <= k < |r| ==> r[k] == Step(choices[k])
  {
    seq(|choices|, k requires 0 <= k < |choices| => Step(choices[k]))
  }

  lemma {:induction false} DoneStays(s: System, choices: seq<Choice>)
    requires s.controller.Some? && s.controller.value.pc.Done?
    ensures Run(s, Steps(choices)) == s
    decreases |choices|
  {
    if choices != [] {
      assert Steps(choices)[1..] == Steps(choices[1..]);
      DoneStays(s, choices[1..]);
    }
  }

  /** The answer to repeating an apply: already active while the journal says applied and the applications are those planned for. */
  function Repeated(h: Host, q: Request, checks: bool): Outcome
    requires q.digest in h.journals
  {
    if checks && h.journals[q.digest].phase == PhaseApplied && h.applications == q.digest.applications
    then AlreadyActive else Refused
  }

  lemma RepeatedInspection(s: System, q: Request, choice: Choice)
    requires Inv(s) && Named(s) && Idle(s) && q.mode == Apply && AppliedBy(s, q)
    ensures var s' := Next(Next(s, Begin(q)), Step(choice));
      s'.host == s.host && s'.controller.Some? && s'.controller.value.pc == Done(Repeated(s.host, q, choice.ok))
  {
    assert JournalNamed(s.host, q.digest);
  }

  /**
   For every history that ends with a successful apply of `q`, and every continuation that does not
   replace the gateway: applying again mutates nothing, however the environment answers, and reports
   the plan active exactly when the checks pass, the applications are unchanged and the journal still
   says applied, which it does unless somebody tried to recover the plan.
   */
  lemma RepeatedApplyMutatesNothing(s0: System, actions: seq<Action>, last: Choice, q: Request, more: seq<Action>, choices: seq<Choice>)
    requires Start(s0) && q.mode == Apply && !Idle(Run(s0, actions)) && Run(s0, actions).controller.value.request == q
    requires Next(Run(s0, actions), Step(last)).controller.value.pc.Done?
    requires Next(Run(s0, actions), Step(last)).controller.value.pc.outcome.Applied?
    requires GatewayKept(Next(Run(s0, actions), Step(last)), more) && Idle(Run(Next(Run(s0, actions), Step(last)), more))
    ensures var before := Run(Next(Run(s0, actions), Step(last)), more);
      var after := Run(Next(before, Begin(q)), Steps(choices));
      && after.host == before.host && q.digest in before.host.journals
      && (choices != [] ==> after.controller.Some?
                            && after.controller.value.pc == Done(Repeated(before.host, q, choices[0].ok)))
      && (NotRecovered(more, q.digest) ==> before.host.journals[q.digest].phase == PhaseApplied)
  {
    var s, applied := Run(s0, actions), Next(Run(s0, actions), Step(last));
    HistoryIsNamed(s0, actions);
    AppliedAtEnd(s, last);
    NextKeepsInv(s, Step(last));
    NextKeepsNamed(s, Step(last));
    StillApplied(applied, more, q);
    AppliesAgain(Run(applied, more), q, choices);
  }

  lemma StillApplied(applied: System, more: seq<Action>, q: Request)
    requires Inv(applied) && Named(applied) && Idle(applied) && AppliedBy(applied, q) && GatewayKept(applied, more)
    requires applied.host.journals[q.digest].phase == PhaseApplied
    ensures Inv(Run(applied, more)) && Named(Run(applied, more)) && AppliedBy(Run(applied, more), q)
    ensures NotRecovered(more, q.digest) ==> Run(applied, more).host.journals[q.digest].phase == PhaseApplied
  {
    RunKeepsNamed(applied, more);
    KeptGatewayStaysApplied(applied, more, q);
    if NotRecovered(more, q.digest) {
      JournalStays(applied, more, q.digest);
    }
  }

  lemma AppliesAgain(before: System, q: Request, choices: seq<Choice>)
    requires Inv(before) && Named(before) && Idle(before) && q.mode == Apply && AppliedBy(before, q)
    ensures var after := Run(Next(before, Begin(q)), Steps(choices));
      && after.host == before.host
      && (choices != [] ==> after.controller.Some?
                            && after.controller.value.pc == Done(Repeated(before.host, q, choices[0].ok)))
  {
    if choices != [] {
      RepeatedInspection(before, q, choices[0]);
      assert Steps(choices)[1..] == Steps(choices[1..]);
      DoneStays(Next(Next(before, Begin(q)), Step(choices[0])), choices[1..]);
    }
  }

  lemma AppliedAtEnd(s: System, last: Choice)
    requires Inv(s) && Named(s) && !Idle(s)
    requires Next(s, Step(last)).controller.value.pc.Done? && Next(s, Step(last)).controller.value.pc.outcome.Applied?
    ensures AppliedBy(Next(s, Step(last)), s.controller.value.request)
    ensures Next(s, Step(last)).host.journals[s.controller.value.request.digest].phase == PhaseApplied
  {
  }

  // ---------------------------------------------------------------- two limits of the journal

  /**
   The journal is written before the baseline manifest. A crash in between strands the plan: nothing
   has been started, yet apply and recover both refuse it.
   */
  lemma CrashBeforeBaselineStrandsPlan(s: System, q: Request, choice: Choice)
    requires Idle(s) && Fresh(s.host, q)
    ensures var crashed := Next(Succeed(Next(s, Begin(q)), 2), Crash);
      && crashed.host.gateway == s.host.gateway && q.digest in crashed.host.journals
      && Next(Next(crashed, Begin(q)), Step(choice)) == System(crashed.host, Some(Controller(
           q, q.digest, Record(q.digest, Prepared, q.email, None), Done(Refused))))
      && Next(Next(crashed, Begin(q.(mode := Recover))), Step(choice)) == System(crashed.host, Some(Controller(
           q.(mode := Recover), q.digest, Record(q.digest, Prepared, q.email, None), Done(Refused))))
  {
    var s1 := Next(s, Begin(q));
    var s2 := Next(s1, Step(OK));
    var s3 := Next(s2, Step(OK));
    assert Succeed(s1, 0) == s1 && Succeed(s1, 1) == s2 && Succeed(s1, 2) == s3;
    assert q.digest !in s3.host.baselines;
  }

  /**
   A journal that says applied does not by itself mean that the gateway is shared: recovering an older
   plan a second time takes a newer plan's gateway down without touching the newer journal.
   */
  lemma AppliedPhaseCanOutliveItsGateway(s: System, q1: Request)
    requires Start(s) && Fresh(s.host, q1)
    ensures var recover := q1.(mode := Recover);
      var once := RecoverRun(Succeed(Next(s, Begin(q1)), HeadSteps(s.host) + 6), recover, OK, OK, OK, OK);
      var q2 := SecondPlan(s.host, q1);
      var again := RecoverRun(Succeed(Next(once, Begin(q2)), 11), recover, OK, OK, OK, OK);
      && q2.digest in again.host.journals && again.host.journals[q2.digest].phase == PhaseApplied
      && again.host.gateway.Some? && !Shared(again.host)
  {
    var recover := q1.(mode := Recover);
    var applied := Succeed(Next(s, Begin(q1)), HeadSteps(s.host) + 6);
    ActivationCompletes(s, q1);
    RecoveryCompletes(applied, recover, OK, OK, OK, OK);
    var once := RecoverRun(applied, recover, OK, OK, OK, OK);
    var q2 := SecondPlan(s.host, q1);
    SecondPlanIsFresh(s, applied, once, q1);
    ActivationCompletes(once, q2);
    RecoveryCompletes(Succeed(Next(once, Begin(q2)), 11), recover, OK, OK, OK, OK);
  }

  /** The plan made after the first one was applied and recovered. */
  function SecondPlan(h: Host, q1: Request): Request {
    Request(Apply, Snapshot(q1.origin, h.nextGateway + 1, h.gatewayState, false, h.applications, true), q1.origin, q1.email)
  }

  lemma SecondPlanIsFresh(s: System, applied: System, once: System, q1: Request)
    requires Start(s) && Fresh(s.host, q1) && Completes(s, applied, q1)
    requires q1.digest in applied.host.journals && once.host == Recovering(applied.host, q1.digest, Made)
    ensures Fresh(once.host, SecondPlan(s.host, q1)) && once.host.network
  {
  }
}
