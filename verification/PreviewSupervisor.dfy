/**
 The preview supervisor (preview-runner/lib/supervisor.ts).

 Several asynchronous executions of a preview spec share one set of fields; the only thing that
 keeps them apart is a generation counter compared after every await. Code between two awaits is
 one step here. `execs` holds what the suspended closures hold: their locals and where they resume.

 The reference is `Solo`: one execution running alone, with no generation counter at all.
*/
module PreviewSupervisor {
  import opened Wrappers

  // ---- Values --------------------------------------------------------------------------------

  /** Identifies the long-lived run command among the captured logs. */
  const RUN_STEP := -1

  datatype Spec = Spec(setup: seq<string>, run: string, fixedPort: Option<int>)
  datatype Lease = Lease(leaseId: string, sessionId: string, spec: Option<Spec>, appPort: int)
  datatype PreviewState = Stopped | Starting | Running | Shared | Failed
  datatype Phase = Idle | SetupPhase(index: nat, command: string) | RunPhase(command: string)

  /** An exit code, or None where the operating system reports a signal instead. */
  type ExitCode = Option<int>

  datatype Reason =
    | StepTimedOut(step: nat)
    | StepExited(step: nat, code: ExitCode)
    | RunExited(code: ExitCode)
    | ExitedBeforeServing(status: int)
    | NoResponse(port: int)

  /** `owner` is the generation whose closure holds this log object. */
  datatype Log = Log(owner: nat, command: string, exitCode: ExitCode)
  /** `exited` is None while the process lives. */
  datatype Child = Child(owner: nat, exited: Option<ExitCode>)

  /** What one execution was asked to do: the setup steps (none for a restart), then the run. */
  datatype Plan = Plan(steps: seq<string>, run: string, port: int)
  datatype RunProcess = NotSpawned | Alive | Exited(code: ExitCode) | Closed
  datatype Pc =
    | Killing
    | InStep(i: nat)
    | StepDone(i: nat, code: ExitCode, timedOut: bool)
    | Polling
    | Polled(ready: bool)
    | Finished
  datatype Exec = Exec(plan: Plan, pc: Pc, process: RunProcess)

  datatype State = State(
    lease: Option<Lease>,
    state: PreviewState,
    phase: Phase,
    logs: map<int, Log>,
    child: Option<Child>,
    failedStep: Option<int>,
    failureReason: Option<Reason>,
    generation: nat,
    forwarding: bool,
    execs: map<nat, Exec>,
    pendingStops: nat,
    pendingReleases: nat)

  /** What happens to one execution between its awaits. */
  datatype Local =
    | KillDone
    | StepClosed(code: ExitCode, timedOut: bool)
    | ResumeStep
    | Poll
    | ProbeAnswered
    | ReadyTimeout
    | ResumeReady
    | ProcExited(code: ExitCode)
    | ProcClosed(code: ExitCode)

  datatype Event =
    | Acquire(leaseId: string, sessionId: string)
    | Start(spec: Spec, appPort: int, confined: bool)
    | Restart(confined: bool)
    | Rebuild(confined: bool)
    | Stop
    | Release
    | StopTail
    | ReleaseTail
    | MarkShared(shared: bool)
    | Env(gen: nat, local: Local)

  predicate Serving(st: PreviewState) { st == Running || st == Shared || st == Starting }

  // ---- The supervisor's steps ----------------------------------------------------------------

  function Init(): State {
    State(None, Stopped, Idle, map[], None, None, None, 0, false, map[], 0, 0)
  }

  function PlanOf(spec: Spec, port: int, full: bool): Plan {
    Plan(if full then spec.setup else [], spec.run, port)
  }

  /** `execute` up to its first await. */
  function Execute(s: State, full: bool): State
    requires s.lease.Some? && s.lease.value.spec.Some?
  {
    var gen := s.generation + 1;
    var plan := PlanOf(s.lease.value.spec.value, s.lease.value.appPort, full);
    s.(generation := gen, state := Starting, phase := Idle, failedStep := None, failureReason := None,
    logs := map[], child := None, execs := s.execs[gen := Exec(plan, Killing, NotSpawned)])
  }

  function Resumed(s: State, g: nat, pc: Pc): State
    requires g in s.execs
  {
    s.(execs := s.execs[g := s.execs[g].(pc := pc)])
  }

  function WriteExit(s: State, g: nat, step: int, code: ExitCode): State {
    if step in s.logs && s.logs[step].owner == g
    then s.(logs := s.logs[step := s.logs[step].(exitCode := code)])
    else s
  }

  /** The setup loop from iteration `i`: start the next step, or spawn the run command. */
  function Advance(s: State, g: nat, i: nat): State
    requires g in s.execs
  {
    var plan := s.execs[g].plan;
    if i < |plan.steps| then
      s.(phase := SetupPhase(i, plan.steps[i]), logs := s.logs[i := Log(g, plan.steps[i], None)],
      execs := s.execs[g := s.execs[g].(pc := InStep(i))])
    else
      s.(phase := RunPhase(plan.run), logs := s.logs[RUN_STEP := Log(g, plan.run, None)],
      child := Some(Child(g, None)), execs := s.execs[g := Exec(plan, Polling, Alive)])
  }

  function OnResumeStep(s: State, g: nat, i: nat, code: ExitCode, timedOut: bool): State
    requires g in s.execs
  {
    if g != s.generation then Resumed(s, g, Finished)
    else if code != Some(0) then
      Resumed(s, g, Finished).(state := Failed, failedStep := Some(i),
      failureReason := Some(if timedOut then StepTimedOut(i) else StepExited(i, code)), phase := Idle)
    else Advance(s, g, i + 1)
  }

  function OnPoll(s: State, g: nat): State
    requires g in s.execs
  {
    if g != s.generation then Resumed(s, g, Polled(false))
    else if s.child.None? && s.state == Starting then Resumed(s, g, Polled(false))
    else s
  }

  function OnResumeReady(s: State, g: nat, ready: bool): State
    requires g in s.execs
  {
    var s' := Resumed(s, g, Finished);
    if g != s.generation then s'
    else if ready then (if s.state == Starting then s'.(state := Running) else s')
    else
      s'.(state := Failed, failedStep := Some(RUN_STEP),
      failureReason := Some(
        if s.child.Some? && s.child.value.exited.Some? && s.child.value.exited.value.Some?
        then ExitedBeforeServing(s.child.value.exited.value.value)
        else NoResponse(s.execs[g].plan.port)))
  }

  function OnProcExited(s: State, g: nat, code: ExitCode): State
    requires g in s.execs
  {
    var s' := s.(execs := s.execs[g := s.execs[g].(process := Exited(code))]);
    if s.child.Some? && s.child.value.owner == g
    then s'.(child := Some(Child(g, Some(code)))) else s'
  }

  function ChildLost(s: State, code: ExitCode): State {
    if Serving(s.state) then
      s.(child := None, state := Failed, failedStep := Some(RUN_STEP),
      failureReason := Some(RunExited(code)), phase := Idle)
    else s.(child := None)
  }

  function OnProcClosed(s: State, g: nat, code: ExitCode): State
    requires g in s.execs
  {
    var s1 := WriteExit(s.(execs := s.execs[g := s.execs[g].(process := Closed)]), g, RUN_STEP, code);
    if g != s.generation then s1 else ChildLost(s1, code)
  }

  function OnStepClosed(s: State, g: nat, i: nat, code: ExitCode, timedOut: bool): State
    requires g in s.execs
  {
    Resumed(WriteExit(s, g, i, if timedOut then None else code), g,
            StepDone(i, if timedOut then Some(1) else code, timedOut))
  }

  /** One environment event for execution `g`; an event that execution is not waiting for is no step. */
  function EnvStep(s: State, g: nat, e: Local): State {
    if g !in s.execs then s else
    var x := s.execs[g];
    match e
    case KillDone =>
      if !x.pc.Killing? then s
      else if g != s.generation then Resumed(s, g, Finished) else Advance(s, g, 0)
    case StepClosed(code, timedOut) => if !x.pc.InStep? then s else OnStepClosed(s, g, x.pc.i, code, timedOut)
    case ResumeStep => if !x.pc.StepDone? then s else OnResumeStep(s, g, x.pc.i, x.pc.code, x.pc.timedOut)
    case Poll => if !x.pc.Polling? then s else OnPoll(s, g)
    case ProbeAnswered => if !x.pc.Polling? then s else Resumed(s, g, Polled(true))
    case ReadyTimeout => if !x.pc.Polling? then s else Resumed(s, g, Polled(false))
    case ResumeReady => if !x.pc.Polled? then s else OnResumeReady(s, g, x.pc.ready)
    case ProcExited(code) => if !x.process.Alive? then s else OnProcExited(s, g, code)
    case ProcClosed(code) =>
      if x.process.Alive? then OnProcClosed(s, g, code)
      else if x.process.Exited? then OnProcClosed(s, g, x.process.code)
      else s
  }

  function Share(st: PreviewState, shared: bool): PreviewState {
    if shared && st == Running then Shared
    else if !shared && st == Shared then Running
    else st
  }

  predicate HasSpec(s: State) { s.lease.Some? && s.lease.value.spec.Some? }

  /** Does this event start a new execution in `s`? */
  predicate Accepts(s: State, e: Event) {
    match e
    case Start(_, _, confined) => s.lease.Some? && confined
    case Restart(confined) => HasSpec(s) && confined
    case Rebuild(confined) => HasSpec(s) && confined
    case _ => false
  }

  function Leased(s: State, spec: Spec, appPort: int): State
    requires s.lease.Some?
  {
    s.(lease := Some(s.lease.value.(spec := Some(spec), appPort := spec.fixedPort.GetOr(appPort))),
    forwarding := true)
  }

  function Step(s: State, e: Event): State {
    match e
    case Acquire(leaseId, sessionId) =>
      if s.lease.Some? then s
      else s.(lease := Some(Lease(leaseId, sessionId, None, 0)), state := Stopped, phase := Idle,
             logs := map[], failedStep := None, failureReason := None)
    case Start(spec, appPort, confined) =>
      if Accepts(s, e) then Execute(Leased(s, spec, appPort), true) else s
    case Restart(confined) => if Accepts(s, e) then Execute(s, false) else s
    case Rebuild(confined) => if Accepts(s, e) then Execute(s, true) else s
    case Stop => s.(generation := s.generation + 1, child := None, pendingStops := s.pendingStops + 1)
    case Release =>
      s.(generation := s.generation + 1, child := None, pendingReleases := s.pendingReleases + 1)
    case StopTail =>
      if s.pendingStops == 0 then s
      else s.(pendingStops := s.pendingStops - 1, forwarding := false, state := Stopped, phase := Idle)
    case ReleaseTail =>
      if s.pendingReleases == 0 then s
      else s.(pendingReleases := s.pendingReleases - 1, forwarding := false, state := Stopped,
             phase := Idle, lease := None)
    case MarkShared(shared) => s.(state := Share(s.state, shared))
    case Env(g, local) => EnvStep(s, g, local)
  }

  function Run(s: State, es: seq<Event>): State
    decreases |es|
  {
    if es == [] then s else Run(Step(s, es[0]), es[1..])
  }

  // ---- What a caller sees --------------------------------------------------------------------

  datatype SeenLog = SeenLog(command: string, exitCode: ExitCode)
  datatype View = View(
    state: PreviewState, phase: Phase, failedStep: Option<int>, failureReason: Option<Reason>,
    child: Option<Option<ExitCode>>, logs: map<int, SeenLog>)

  function ViewOf(s: State): View {
    View(s.state, s.phase, s.failedStep, s.failureReason,
         if s.child.Some? then Some(s.child.value.exited) else None,
         SeenLogs(s.logs))
  }

  function SeenLogs(logs: map<int, Log>): map<int, SeenLog> {
    map k | k in logs :: SeenLog(logs[k].command, logs[k].exitCode)
  }

  lemma SeenLogsUpdate(logs: map<int, Log>, k: int, entry: Log)
    ensures SeenLogs(logs[k := entry]) == SeenLogs(logs)[k := SeenLog(entry.command, entry.exitCode)]
  {
  }

  // ---- The reference: one execution alone ----------------------------------------------------

  datatype Solo = Solo(view: View, pc: Pc, process: RunProcess)
  datatype SoloEvent = Own(local: Local) | Toggle(shared: bool)

  function SoloStart(): Solo {
    Solo(View(Starting, Idle, None, None, None, map[]), Killing, NotSpawned)
  }

  function SoloAdvance(p: Plan, s: Solo, i: nat): Solo {
    if i < |p.steps| then
      Solo(s.view.(phase := SetupPhase(i, p.steps[i]), logs := s.view.logs[i := SeenLog(p.steps[i], None)]),
           InStep(i), s.process)
    else
      Solo(s.view.(phase := RunPhase(p.run), logs := s.view.logs[RUN_STEP := SeenLog(p.run, None)],
           child := Some(None)), Polling, Alive)
  }

  function SoloExit(v: View, step: int, code: ExitCode): View {
    if step in v.logs then v.(logs := v.logs[step := v.logs[step].(exitCode := code)]) else v
  }

  function SoloClosed(s: Solo, code: ExitCode): Solo {
    var v := SoloExit(s.view, RUN_STEP, code).(child := None);
    Solo(if Serving(v.state)
         then v.(state := Failed, failedStep := Some(RUN_STEP), failureReason := Some(RunExited(code)),
              phase := Idle)
         else v, s.pc, Closed)
  }

  function SoloResumeStep(p: Plan, s: Solo, i: nat, code: ExitCode, timedOut: bool): Solo {
    if code == Some(0) then SoloAdvance(p, s, i + 1)
    else Solo(s.view.(state := Failed, failedStep := Some(i), phase := Idle,
              failureReason := Some(if timedOut then StepTimedOut(i) else StepExited(i, code))),
              Finished, s.process)
  }

  function SoloResumeReady(p: Plan, s: Solo, ready: bool): Solo {
    if ready then
      Solo(if s.view.state == Starting then s.view.(state := Running) else s.view, Finished, s.process)
    else
      Solo(s.view.(state := Failed, failedStep := Some(RUN_STEP),
           failureReason := Some(if s.process.Exited? && s.process.code.Some?
                                 then ExitedBeforeServing(s.process.code.value) else NoResponse(p.port))),
           Finished, s.process)
  }

  function SoloStep(p: Plan, s: Solo, e: Local): Solo {
    match e
    case KillDone => if s.pc.Killing? then SoloAdvance(p, s, 0) else s
    case StepClosed(code, timedOut) =>
      if !s.pc.InStep? then s
      else Solo(SoloExit(s.view, s.pc.i, if timedOut then None else code),
                StepDone(s.pc.i, if timedOut then Some(1) else code, timedOut), s.process)
    case ResumeStep => if s.pc.StepDone? then SoloResumeStep(p, s, s.pc.i, s.pc.code, s.pc.timedOut) else s
    case Poll => s
    case ProbeAnswered => if s.pc.Polling? then s.(pc := Polled(true)) else s
    case ReadyTimeout => if s.pc.Polling? then s.(pc := Polled(false)) else s
    case ResumeReady => if s.pc.Polled? then SoloResumeReady(p, s, s.pc.ready) else s
    case ProcExited(code) =>
      if s.process.Alive? then s.(view := s.view.(child := Some(Some(code))), process := Exited(code)) else s
    case ProcClosed(code) =>
      if s.process.Alive? then SoloClosed(s, code)
      else if s.process.Exited? then SoloClosed(s, s.process.code)
      else s
  }

  function SoloEventStep(p: Plan, s: Solo, e: SoloEvent): Solo {
    match e
    case Own(local) => SoloStep(p, s, local)
    case Toggle(shared) => s.(view := s.view.(state := Share(s.view.state, shared)))
  }

  function SoloRun(p: Plan, s: Solo, es: seq<SoloEvent>): Solo
    decreases |es|
  {
    if es == [] then s else SoloRun(p, SoloEventStep(p, s, es[0]), es[1..])
  }

  /** The part of a trace that concerns execution `g`: its own events and the share toggles. */
  function Relevant(g: nat, es: seq<Event>): seq<SoloEvent> {
    if es == [] then []
    else
      var rest := Relevant(g, es[1..]);
      match es[0]
      case Env(g', local) => if g' == g then [Own(local)] + rest else rest
      case MarkShared(shared) => [Toggle(shared)] + rest
      case _ => rest
  }

  // ---- What every step keeps -----------------------------------------------------------------

  /** The current execution's process and the tracked child tell the same story. */
  ghost predicate Tracks(x: Exec, child: Option<Child>, st: PreviewState) {
    match x.process
    case NotSpawned => child.None? && !x.pc.Polling? && !x.pc.Polled?
    case Alive => child.Some? && child.value.exited.None? && (x.pc.Polling? || x.pc.Polled? || x.pc.Finished?)
    case Exited(code) =>
      child.Some? && child.value.exited == Some(code) && (x.pc.Polling? || x.pc.Polled? || x.pc.Finished?)
    case Closed => child.None? && st != Starting && (x.pc.Polling? || x.pc.Polled? || x.pc.Finished?)
  }

  ghost predicate Inv(s: State) {
    && (forall g :: g in s.execs ==> g <= s.generation)
    && (s.child.Some? ==> s.child.value.owner == s.generation && s.generation in s.execs)
    && (s.generation in s.execs ==> Tracks(s.execs[s.generation], s.child, s.state))
  }

  /** What no continuation of an execution touches. */
  ghost predicate SameSlot(s: State, t: State) {
    && t.generation == s.generation && t.lease == s.lease && t.forwarding == s.forwarding
    && t.pendingStops == s.pendingStops && t.pendingReleases == s.pendingReleases
    && t.execs.Keys == s.execs.Keys
  }

  lemma AdvanceKeepsInv(s: State, g: nat, i: nat)
    requires Inv(s) && g == s.generation && g in s.execs && s.execs[g].process.NotSpawned?
    ensures Inv(Advance(s, g, i)) && SameSlot(s, Advance(s, g, i))
  {
  }

  lemma ProcExitedKeepsInv(s: State, g: nat, code: ExitCode)
    requires Inv(s) && g == s.generation && g in s.execs && s.execs[g].process.Alive?
    ensures Inv(OnProcExited(s, g, code)) && SameSlot(s, OnProcExited(s, g, code))
  {
  }

  lemma ProcClosedKeepsInv(s: State, g: nat, code: ExitCode)
    requires Inv(s) && g == s.generation && g in s.execs
    requires s.execs[g].process.Alive? || s.execs[g].process.Exited?
    ensures Inv(OnProcClosed(s, g, code)) && SameSlot(s, OnProcClosed(s, g, code))
  {
  }

  lemma ResumeStepKeepsInv(s: State, g: nat, i: nat, code: ExitCode, timedOut: bool)
    requires Inv(s) && g == s.generation && g in s.execs
    requires s.execs[g].pc.StepDone?
    ensures Inv(OnResumeStep(s, g, i, code, timedOut)) && SameSlot(s, OnResumeStep(s, g, i, code, timedOut))
  {
    if code == Some(0) { AdvanceKeepsInv(s, g, i + 1); }
  }

  lemma ReadyKeepsInv(s: State, g: nat, ready: bool)
    requires Inv(s) && g == s.generation && g in s.execs
    ensures s.execs[g].pc.Polling? ==>
              Inv(Resumed(s, g, Polled(ready))) && SameSlot(s, Resumed(s, g, Polled(ready)))
    ensures s.execs[g].pc.Polling? ==> Inv(OnPoll(s, g)) && SameSlot(s, OnPoll(s, g))
    ensures s.execs[g].pc.Polled? ==> Inv(OnResumeReady(s, g, ready)) && SameSlot(s, OnResumeReady(s, g, ready))
  {
  }

  lemma StepClosedKeepsInv(s: State, g: nat, i: nat, code: ExitCode, timedOut: bool)
    requires Inv(s) && g == s.generation && g in s.execs && s.execs[g].pc.InStep?
    ensures Inv(OnStepClosed(s, g, i, code, timedOut)) && SameSlot(s, OnStepClosed(s, g, i, code, timedOut))
  {
  }

  lemma CurrentKeepsInv(s: State, g: nat, e: Local)
    requires Inv(s) && g == s.generation && g in s.execs
    ensures Inv(EnvStep(s, g, e)) && SameSlot(s, EnvStep(s, g, e))
  {
    var x := s.execs[g];
    match e {
      case KillDone => if x.pc.Killing? { AdvanceKeepsInv(s, g, 0); }
      case StepClosed(code, timedOut) => if x.pc.InStep? { StepClosedKeepsInv(s, g, x.pc.i, code, timedOut); }
      case ResumeStep => if x.pc.StepDone? { ResumeStepKeepsInv(s, g, x.pc.i, x.pc.code, x.pc.timedOut); }
      case Poll => ReadyKeepsInv(s, g, false);
      case ProbeAnswered => ReadyKeepsInv(s, g, true);
      case ReadyTimeout => ReadyKeepsInv(s, g, false);
      case ResumeReady => if x.pc.Polled? { ReadyKeepsInv(s, g, x.pc.ready); }
      case ProcExited(code) => if x.process.Alive? { ProcExitedKeepsInv(s, g, code); }
      case ProcClosed(code) =>
        if x.process.Alive? { ProcClosedKeepsInv(s, g, code); }
        else if x.process.Exited? { ProcClosedKeepsInv(s, g, x.process.code); }
    }
  }

  lemma EnvKeepsInv(s: State, g: nat, e: Local)
    requires Inv(s)
    ensures Inv(EnvStep(s, g, e)) && SameSlot(s, EnvStep(s, g, e))
  {
    if g !in s.execs {
    } else if g == s.generation {
      CurrentKeepsInv(s, g, e);
    } else {
      var t := EnvStep(s, g, e);
      assert OnlyOldChanged(g, s, t) by { SupersededIsInvisible(s, g, e); }
      OnlyOldKeepsInv(s, t, g);
    }
  }

  lemma OnlyOldKeepsInv(s: State, t: State, g: nat)
    requires Inv(s) && g != s.generation && OnlyOldChanged(g, s, t)
    ensures Inv(t) && SameSlot(s, t)
  {
    assert s.generation in s.execs ==> t.execs[s.generation] == s.execs[s.generation];
  }

  lemma StepKeepsInv(s: State, e: Event)
    requires Inv(s)
    ensures Inv(Step(s, e))
  {
    if e.Env? { EnvKeepsInv(s, e.gen, e.local); }
  }

  lemma {:induction false} RunKeepsInv(s: State, es: seq<Event>)
    requires Inv(s)
    ensures Inv(Run(s, es))
    decreases |es|
  {
    if es != [] {
      StepKeepsInv(s, es[0]);
      RunKeepsInv(Step(s, es[0]), es[1..]);
    }
  }

  // ---- A superseded execution is invisible ---------------------------------------------------

  /** Equal but for exit codes in the log objects that execution `g` holds. */
  ghost predicate SameButOldExits(g: nat, a: map<int, Log>, b: map<int, Log>) {
    && b.Keys == a.Keys
    && forall k :: k in a ==>
         b[k].owner == a[k].owner && b[k].command == a[k].command && (a[k].owner != g ==> b[k] == a[k])
  }

  /** `t` is `s` but for what the closures of execution `g` hold. */
  ghost predicate OnlyOldChanged(g: nat, s: State, t: State) {
    && t == s.(logs := t.logs, execs := t.execs)
    && SameButOldExits(g, s.logs, t.logs)
    && t.execs.Keys == s.execs.Keys
    && forall h :: h in s.execs && h != g ==> t.execs[h] == s.execs[h]
  }

  /**
   A superseded execution is invisible: whatever happens to it, the state, phase, failure, tracked
   child, set of log entries, every other execution and every log entry of another execution stay.
   */
  lemma SupersededIsInvisible(s: State, g: nat, e: Local)
    requires Inv(s) && g != s.generation
    ensures OnlyOldChanged(g, s, EnvStep(s, g, e))
  {
  }

  // ---- The last execution wins ---------------------------------------------------------------

  /** The shared fields look exactly as if execution `s.generation` were alone. */
  ghost predicate Simulates(s: State, p: Plan, solo: Solo) {
    && Inv(s)
    && s.lease.Some?
    && s.generation in s.execs
    && s.execs[s.generation] == Exec(p, solo.pc, solo.process)
    && ViewOf(s) == solo.view
    && (forall k :: k in s.logs ==> s.logs[k].owner == s.generation)
  }

  lemma AdvanceSimulates(s: State, p: Plan, solo: Solo, i: nat)
    requires Simulates(s, p, solo) && solo.process.NotSpawned?
    ensures Simulates(Advance(s, s.generation, i), p, SoloAdvance(p, solo, i))
  {
    AdvanceKeepsInv(s, s.generation, i);
    if i < |p.steps| {
      SeenLogsUpdate(s.logs, i, Log(s.generation, p.steps[i], None));
    } else {
      SeenLogsUpdate(s.logs, RUN_STEP, Log(s.generation, p.run, None));
    }
  }

  lemma WriteExitSeen(s: State, step: int, code: ExitCode)
    requires forall k :: k in s.logs ==> s.logs[k].owner == s.generation
    ensures var t := WriteExit(s, s.generation, step, code);
            && t == s.(logs := t.logs)
            && ViewOf(t) == SoloExit(ViewOf(s), step, code)
            && forall k :: k in t.logs ==> t.logs[k].owner == s.generation
  {
    if step in s.logs {
      SeenLogsUpdate(s.logs, step, s.logs[step].(exitCode := code));
    }
  }

  lemma StepClosedSimulates(s: State, p: Plan, solo: Solo, code: ExitCode, timedOut: bool)
    requires Simulates(s, p, solo) && solo.pc.InStep?
    ensures Simulates(EnvStep(s, s.generation, StepClosed(code, timedOut)), p,
                      SoloStep(p, solo, StepClosed(code, timedOut)))
  {
    StepClosedKeepsInv(s, s.generation, solo.pc.i, code, timedOut);
    WriteExitSeen(s, solo.pc.i, if timedOut then None else code);
  }

  lemma ResumeStepSimulates(s: State, p: Plan, solo: Solo)
    requires Simulates(s, p, solo) && solo.pc.StepDone?
    ensures Simulates(EnvStep(s, s.generation, ResumeStep), p, SoloStep(p, solo, ResumeStep))
  {
    ResumeStepKeepsInv(s, s.generation, solo.pc.i, solo.pc.code, solo.pc.timedOut);
    if solo.pc.code == Some(0) { AdvanceSimulates(s, p, solo, solo.pc.i + 1); }
  }

  lemma ReadySimulates(s: State, p: Plan, solo: Solo, e: Local)
    requires Simulates(s, p, solo) && (e.Poll? || e.ProbeAnswered? || e.ReadyTimeout? || e.ResumeReady?)
    ensures Simulates(EnvStep(s, s.generation, e), p, SoloStep(p, solo, e))
  {
    EnvKeepsInv(s, s.generation, e);
  }

  lemma ProcSimulates(s: State, p: Plan, solo: Solo, e: Local)
    requires Simulates(s, p, solo) && (e.ProcExited? || e.ProcClosed?)
    ensures Simulates(EnvStep(s, s.generation, e), p, SoloStep(p, solo, e))
  {
    var g := s.generation;
    EnvKeepsInv(s, g, e);
    if e.ProcClosed? && !solo.process.NotSpawned? && !solo.process.Closed? {
      var code := if solo.process.Exited? then solo.process.code else e.code;
      WriteExitSeen(s.(execs := s.execs[g := s.execs[g].(process := Closed)]), RUN_STEP, code);
    }
  }

  lemma OwnStepSimulates(s: State, p: Plan, solo: Solo, e: Local)
    requires Simulates(s, p, solo)
    ensures Simulates(EnvStep(s, s.generation, e), p, SoloStep(p, solo, e))
  {
    match e {
      case KillDone => if solo.pc.Killing? { AdvanceSimulates(s, p, solo, 0); }
      case StepClosed(code, timedOut) => if solo.pc.InStep? { StepClosedSimulates(s, p, solo, code, timedOut); }
      case ResumeStep => if solo.pc.StepDone? { ResumeStepSimulates(s, p, solo); }
      case Poll => ReadySimulates(s, p, solo, e);
      case ProbeAnswered => ReadySimulates(s, p, solo, e);
      case ReadyTimeout => ReadySimulates(s, p, solo, e);
      case ResumeReady => ReadySimulates(s, p, solo, e);
      case ProcExited(_) => ProcSimulates(s, p, solo, e);
      case ProcClosed(_) => ProcSimulates(s, p, solo, e);
    }
  }

  /** No command is accepted and no stop is called in `es`: the command before it was the last. */
  ghost predicate NoCommand(s: State, es: seq<Event>)
    decreases |es|
  {
    es == [] ||
    (!Accepts(s, es[0]) && !es[0].Stop? && !es[0].Release? && NoCommand(Step(s, es[0]), es[1..]))
  }

  lemma OtherStepSimulates(s: State, p: Plan, solo: Solo, e: Event)
    requires Simulates(s, p, solo) && (e.StopTail? ==> s.pendingStops == 0) && s.pendingReleases == 0
    requires !Accepts(s, e) && !e.Stop? && !e.Release? && (e.Env? ==> e.gen != s.generation)
    ensures var t := Step(s, e);
            && SameSlot(s, t)
            && Simulates(t, p, if e.MarkShared? then SoloEventStep(p, solo, Toggle(e.shared)) else solo)
  {
    StepKeepsInv(s, e);
    if e.Env? && e.gen in s.execs {
      SupersededIsInvisible(s, e.gen, e.local);
      assert SeenLogs(Step(s, e).logs) == SeenLogs(s.logs);
    }
  }

  lemma {:induction false} TailSimulates(s: State, p: Plan, solo: Solo, es: seq<Event>)
    requires Simulates(s, p, solo) && s.pendingStops == 0 && s.pendingReleases == 0 && NoCommand(s, es)
    ensures Simulates(Run(s, es), p, SoloRun(p, solo, Relevant(s.generation, es)))
    ensures Run(s, es).generation == s.generation
    decreases |es|
  {
    if es != [] {
      var e, rest := es[0], Relevant(s.generation, es[1..]);
      if e.Env? && e.gen == s.generation {
        OwnStepSimulates(s, p, solo, e.local);
        EnvKeepsInv(s, e.gen, e.local);
        assert ([Own(e.local)] + rest)[1..] == rest;
        TailSimulates(Step(s, e), p, SoloStep(p, solo, e.local), es[1..]);
      } else {
        OtherStepSimulates(s, p, solo, e);
        if e.MarkShared? {
          assert ([Toggle(e.shared)] + rest)[1..] == rest;
          TailSimulates(Step(s, e), p, SoloEventStep(p, solo, Toggle(e.shared)), es[1..]);
        } else {
          TailSimulates(Step(s, e), p, solo, es[1..]);
        }
      }
    }
  }

  function PlanStarted(s: State, cmd: Event): Plan
    requires Accepts(s, cmd)
  {
    if cmd.Start? then PlanOf(cmd.spec, cmd.spec.fixedPort.GetOr(cmd.appPort), true)
    else PlanOf(s.lease.value.spec.value, s.lease.value.appPort, cmd.Rebuild?)
  }

  lemma CommandSimulates(s: State, cmd: Event)
    requires Inv(s) && Accepts(s, cmd)
    ensures var t := Step(s, cmd);
            && Simulates(t, PlanStarted(s, cmd), SoloStart())
            && t.generation == s.generation + 1
            && t.pendingStops == s.pendingStops && t.pendingReleases == s.pendingReleases
  {
    StepKeepsInv(s, cmd);
    assert SeenLogs(map[]) == map[];
  }

  /**
   Last execution wins. Take any run from boot: any mix of commands, stops, child exits, timers and
   probes of any number of executions. If no stop is still pending when its last command is
   accepted, everything a caller sees at the end is what that command's execution shows when it runs
   alone on its own events.
   */
  lemma LastExecutionWins(before: seq<Event>, cmd: Event, after: seq<Event>)
    requires var s := Run(Init(), before);
             && Accepts(s, cmd) && NoCommand(Step(s, cmd), after)
             && s.pendingStops == 0 && s.pendingReleases == 0
    ensures var s := Run(Init(), before);
            var t := Run(Step(s, cmd), after);
            && ViewOf(t) ==
               SoloRun(PlanStarted(s, cmd), SoloStart(), Relevant(s.generation + 1, after)).view
            && (t.child.Some? ==> t.child.value.owner == t.generation == s.generation + 1)
  {
    RunKeepsInv(Init(), before);
    var s := Run(Init(), before);
    CommandSimulates(s, cmd);
    TailSimulates(Step(s, cmd), PlanStarted(s, cmd), SoloStart(), after);
  }

  /**
   The side condition is exact. On every continuation without a command or a stop a caller sees what
   the last command's execution shows alone, if and only if no stop and no release was pending when
   it was accepted; otherwise the tail that is due writes "stopped" over the new execution.
   */
  lemma LastExecutionWinsExactly(before: seq<Event>, cmd: Event)
    requires Accepts(Run(Init(), before), cmd)
    ensures var s := Run(Init(), before);
            s.pendingStops == 0 && s.pendingReleases == 0 <==>
            (forall after :: NoCommand(Step(s, cmd), after) ==>
               ViewOf(Run(Step(s, cmd), after)) ==
               SoloRun(PlanStarted(s, cmd), SoloStart(), Relevant(s.generation + 1, after)).view)
  {
    var s := Run(Init(), before);
    if s.pendingStops == 0 && s.pendingReleases == 0 {
      forall after | NoCommand(Step(s, cmd), after)
        ensures ViewOf(Run(Step(s, cmd), after)) ==
                SoloRun(PlanStarted(s, cmd), SoloStart(), Relevant(s.generation + 1, after)).view
      {
        LastExecutionWins(before, cmd, after);
      }
    } else {
      var tail := if s.pendingStops > 0 then StopTail else ReleaseTail;
      DueTailClobbers(s, cmd, tail);
      assert NoCommand(Step(s, cmd), [tail]);
    }
  }

  lemma DueTailClobbers(s: State, cmd: Event, tail: Event)
    requires Accepts(s, cmd)
    requires (tail.StopTail? && s.pendingStops > 0) || (tail.ReleaseTail? && s.pendingReleases > 0)
    ensures NoCommand(Step(s, cmd), [tail])
    ensures ViewOf(Run(Step(s, cmd), [tail])).state == Stopped
    ensures SoloRun(PlanStarted(s, cmd), SoloStart(), Relevant(s.generation + 1, [tail])).view.state == Starting
  {
    var t := Step(s, cmd);
    assert t.pendingStops == s.pendingStops && t.pendingReleases == s.pendingReleases;
    hide Execute, PlanStarted;
    assert Step(t, tail).state == Stopped;
    hide Step;
    assert [tail][1..] == [];
    assert Relevant(s.generation + 1, []) == [];
    assert Relevant(s.generation + 1, [tail]) == [];
    assert Run(t, [tail]) == Run(Step(t, tail), []) == Step(t, tail);
  }

  // ---- Fail-fast -----------------------------------------------------------------------------

  /** The logs hold steps 0..last, with their own commands, and all but the last exited 0. */
  ghost predicate Upto(p: Plan, logs: map<int, SeenLog>, last: nat) {
    && last < |p.steps|
    && (forall k :: k in logs <==> 0 <= k <= last)
    && (forall k :: 0 <= k <= last ==> logs[k].command == p.steps[k])
    && (forall k :: 0 <= k < last ==> logs[k].exitCode == Some(0))
  }

  /** Every setup step exited 0 and the run command has been started. */
  ghost predicate SetupPassed(p: Plan, logs: map<int, SeenLog>) {
    && (forall k :: k in logs <==> (k == RUN_STEP || 0 <= k < |p.steps|))
    && logs[RUN_STEP].command == p.run
    && (forall k :: 0 <= k < |p.steps| ==> logs[k].command == p.steps[k] && logs[k].exitCode == Some(0))
  }

  ghost predicate FailedAt(p: Plan, v: View, i: nat) {
    v.state == Failed && v.failedStep == Some(i) && Upto(p, v.logs, i) && v.logs[i].exitCode != Some(0)
  }

  /** What the shown state claims about plan `p` is so: where it failed, and that its setup passed. */
  ghost predicate Truthful(p: Plan, v: View) {
    && (v.state == Failed ==>
          v.failedStep.Some? &&
          (v.failedStep.value != RUN_STEP ==>
             v.failedStep.value >= 0 && FailedAt(p, v, v.failedStep.value)))
    && (v.state == Running || v.state == Shared || (v.state == Failed && v.failedStep == Some(RUN_STEP)) ==>
          SetupPassed(p, v.logs))
  }

  /** The state is `st`, unless the tail of an earlier stop may have written over it. */
  ghost predicate Kept(v: View, st: PreviewState, clobbered: bool) {
    v.state == st || (clobbered && v.state == Stopped)
  }

  ghost predicate SoloInv(p: Plan, s: Solo, clobbered: bool) {
    var v := s.view;
    if s.process.NotSpawned? then
      v.child.None? &&
      match s.pc
      case Killing => Kept(v, Starting, clobbered) && v.failedStep.None? && v.logs == map[]
      case InStep(i) => Kept(v, Starting, clobbered) && v.failedStep.None? && Upto(p, v.logs, i)
      case StepDone(i, code, timedOut) =>
        && Kept(v, Starting, clobbered) && v.failedStep.None? && Upto(p, v.logs, i)
        && (timedOut ==> code == Some(1)) && v.logs[i].exitCode == (if timedOut then None else code)
      case Finished =>
        && v.failedStep.Some? && v.failedStep.value >= 0 && Kept(v, Failed, clobbered)
        && FailedAt(p, v.(state := Failed), v.failedStep.value)
      case _ => false
    else
      && SetupPassed(p, v.logs)
      && (v.state == Stopped ==> clobbered)
      && (v.state == Failed ==> v.failedStep.Some?)
      && (v.failedStep.Some? ==> v.failedStep == Some(RUN_STEP) && Kept(v, Failed, clobbered))
      && (v.child.Some? <==> !s.process.Closed?)
      && (s.process.Closed? ==> Kept(v, Failed, clobbered))
      && match s.pc
         case Polling => Kept(v, Starting, clobbered) || (v.state == Failed && s.process.Closed?)
         case Polled(_) => Kept(v, Starting, clobbered) || (v.state == Failed && s.process.Closed?)
         case Finished => v.state != Starting
         case _ => false
  }

  lemma SoloAdvanceKeepsInv(p: Plan, s: Solo, i: nat, clobbered: bool)
    requires s.process.NotSpawned? && s.view.child.None? && s.view.failedStep.None?
    requires Kept(s.view, Starting, clobbered)
    requires if i == 0 then s.view.logs == map[] else
               Upto(p, s.view.logs, i - 1) && s.view.logs[i - 1].exitCode == Some(0)
    ensures SoloInv(p, SoloAdvance(p, s, i), clobbered)
  {
  }

  lemma ProcessKeepsInv(p: Plan, s: Solo, e: Local, clobbered: bool)
    requires SoloInv(p, s, clobbered) && !s.process.NotSpawned? && (e.ProcExited? || e.ProcClosed?)
    ensures SoloInv(p, SoloStep(p, s, e), clobbered)
  {
  }

  lemma SpawnedKeepsInv(p: Plan, s: Solo, e: Local, clobbered: bool)
    requires SoloInv(p, s, clobbered) && !s.process.NotSpawned?
    ensures SoloInv(p, SoloStep(p, s, e), clobbered)
  {
    if e.ProcExited? || e.ProcClosed? {
      hide SoloInv, SoloStep;
      ProcessKeepsInv(p, s, e, clobbered);
    }
  }

  lemma SoloEventKeepsInv(p: Plan, s: Solo, e: SoloEvent, clobbered: bool)
    requires SoloInv(p, s, clobbered)
    ensures SoloInv(p, SoloEventStep(p, s, e), clobbered)
  {
    if e.Own? && !s.process.NotSpawned? {
      SpawnedKeepsInv(p, s, e.local, clobbered);
    } else if e.Own? {
      if e.local.KillDone? && s.pc.Killing? { SoloAdvanceKeepsInv(p, s, 0, clobbered); }
      if e.local.ResumeStep? && s.pc.StepDone? && s.pc.code == Some(0) {
        SoloAdvanceKeepsInv(p, s, s.pc.i + 1, clobbered);
      }
    }
  }

  lemma {:induction false} SoloRunKeepsInv(p: Plan, s: Solo, es: seq<SoloEvent>)
    requires SoloInv(p, s, false)
    ensures SoloInv(p, SoloRun(p, s, es), false)
    decreases |es|
  {
    if es != [] {
      SoloEventKeepsInv(p, s, es[0], false);
      SoloRunKeepsInv(p, SoloEventStep(p, s, es[0]), es[1..]);
    }
  }

  lemma SoloIsTruthful(p: Plan, s: Solo)
    requires SoloInv(p, s, true)
    ensures Truthful(p, s.view)
    ensures s.view.state == Running || s.view.state == Shared ==> s.view.child.Some?
  {
  }

  /** The tail of a stop that was already pending writes over state and phase, and nothing else. */
  lemma ClobberSimulates(s: State, p: Plan, solo: Solo)
    requires Simulates(s, p, solo) && SoloInv(p, solo, true) && s.pendingStops > 0
    ensures var t := Step(s, StopTail);
            var solo' := solo.(view := solo.view.(state := Stopped, phase := Idle));
            Simulates(t, p, solo') && SoloInv(p, solo', true)
            && t.generation == s.generation && t.pendingReleases == s.pendingReleases
  {
    StepKeepsInv(s, StopTail);
  }

  /**
   A stop or release was called since. The slot keeps showing what it showed until the tail runs, and
   no setup step of the execution on show can still write its exit code.
   */
  ghost predicate Frozen(p: Plan, s: State) {
    && Inv(s)
    && s.generation !in s.execs
    && Truthful(p, ViewOf(s))
    && (s.state == Failed || s.state == Running || s.state == Shared ==>
          forall k, g :: k in s.logs && s.logs[k].owner == g && g in s.execs ==> !s.execs[g].pc.InStep?)
  }

  lemma StopFreezes(s: State, p: Plan, solo: Solo, e: Event)
    requires Simulates(s, p, solo) && SoloInv(p, solo, true) && (e.Stop? || e.Release?)
    ensures Frozen(p, Step(s, e))
  {
    StepKeepsInv(s, e);
    SoloIsTruthful(p, solo);
    var t := Step(s, e);
    assert t.generation !in t.execs;
    assert ViewOf(t) == solo.view.(child := None);
  }

  /** A superseded execution starts no step, and writes a setup exit code only from the step it is in. */
  lemma LateEventWrites(s: State, g: nat, e: Local)
    requires g in s.execs && g != s.generation
    ensures var t := EnvStep(s, g, e);
            && g in t.execs
            && (t.execs[g].pc.InStep? ==> s.execs[g].pc.InStep?)
            && (!s.execs[g].pc.InStep? ==>
                  t.logs == s.logs || exists code :: t == WriteExit(t.(logs := s.logs), g, RUN_STEP, code))
  {
    if e.ProcClosed? && s.execs[g].process.Alive? {
      var t := EnvStep(s, g, e);
      assert t == WriteExit(t.(logs := s.logs), g, RUN_STEP, e.code);
    } else if e.ProcClosed? && s.execs[g].process.Exited? {
      var t := EnvStep(s, g, e);
      assert t == WriteExit(t.(logs := s.logs), g, RUN_STEP, s.execs[g].process.code);
    }
  }

  /** Equal but for the exit code of the run command. */
  ghost predicate SameSetup(a: map<int, SeenLog>, b: map<int, SeenLog>) {
    && (forall k :: k in b <==> k in a)
    && forall k :: k in a ==> if k == RUN_STEP then b[k].command == a[k].command else b[k] == a[k]
  }

  lemma RunExitKeepsTruth(v: View, w: View, p: Plan)
    requires Truthful(p, v) && w.state == v.state && w.failedStep == v.failedStep
    requires v.state == Failed || v.state == Running || v.state == Shared ==> SameSetup(v.logs, w.logs)
    ensures Truthful(p, w)
  {
    if v.state == Failed && v.failedStep.value != RUN_STEP {
      var i := v.failedStep.value;
      assert Upto(p, w.logs, i);
    } else if v.state == Failed || v.state == Running || v.state == Shared {
      assert SetupPassed(p, w.logs);
    }
  }

  /** A late run command may still leave its exit code in the shown log; no claim is about that. */
  lemma LateEventKeepsFrozen(s: State, p: Plan, g: nat, e: Local)
    requires Frozen(p, s)
    ensures Frozen(p, EnvStep(s, g, e))
  {
    var t := EnvStep(s, g, e);
    if g in s.execs {
      EnvKeepsInv(s, g, e);
      SupersededIsInvisible(s, g, e);
      LateEventWrites(s, g, e);
      hide EnvStep, Inv, Truthful;
      RunExitKeepsTruth(ViewOf(s), ViewOf(t), p);
    }
  }

  lemma StepKeepsFrozen(s: State, p: Plan, e: Event)
    requires Frozen(p, s) && !Accepts(s, e)
    ensures Frozen(p, Step(s, e))
  {
    if e.Env? {
      LateEventKeepsFrozen(s, p, e.gen, e.local);
    } else {
      StepKeepsInv(s, e);
    }
  }

  /** No command is accepted in `es`; stops and releases may be. */
  ghost predicate NoneAccepted(s: State, es: seq<Event>)
    decreases |es|
  {
    es == [] || (!Accepts(s, es[0]) && NoneAccepted(Step(s, es[0]), es[1..]))
  }

  lemma {:induction false} FrozenRun(s: State, p: Plan, es: seq<Event>)
    requires Frozen(p, s) && NoneAccepted(s, es)
    ensures Frozen(p, Run(s, es))
    decreases |es|
  {
    if es != [] {
      StepKeepsFrozen(s, p, es[0]);
      FrozenRun(Step(s, es[0]), p, es[1..]);
    }
  }

  lemma {:induction false} GenerationGrows(s: State, es: seq<Event>)
    ensures Run(s, es).generation >= s.generation
    decreases |es|
  {
    if es != [] {
      var t := Step(s, es[0]);
      assert t.generation >= s.generation;
      hide Step;
      GenerationGrows(t, es[1..]);
    }
  }

  /** What is shown after the last command: its own execution's story, live or frozen by a stop. */
  ghost predicate Honest(p: Plan, g: nat, t: State) {
    && Truthful(p, ViewOf(t))
    && (t.generation == g && (t.state == Running || t.state == Shared) ==>
          t.child.Some? && t.child.value.owner == g)
  }

  lemma LiveIsHonest(s: State, p: Plan, solo: Solo)
    requires Simulates(s, p, solo) && SoloInv(p, solo, true)
    ensures Honest(p, s.generation, s)
  {
    SoloIsTruthful(p, solo);
  }

  lemma FrozenIsHonest(s: State, p: Plan, g: nat)
    requires Frozen(p, s) && s.generation != g
    ensures Honest(p, g, s)
  {
  }

  /** Live steps keep the execution on show in step with one running alone, stop tails written in. */
  lemma LiveStep(s: State, p: Plan, solo: Solo, e: Event) returns (solo': Solo)
    requires Simulates(s, p, solo) && SoloInv(p, solo, true) && s.pendingReleases == 0
    requires !Accepts(s, e) && !e.Stop? && !e.Release?
    ensures Simulates(Step(s, e), p, solo') && SoloInv(p, solo', true)
    ensures Step(s, e).pendingReleases == 0 && Step(s, e).generation == s.generation
  {
    if e.StopTail? && s.pendingStops > 0 {
      ClobberSimulates(s, p, solo);
      solo' := solo.(view := solo.view.(state := Stopped, phase := Idle));
    } else if e.Env? && e.gen == s.generation {
      OwnStepSimulates(s, p, solo, e.local);
      EnvKeepsInv(s, e.gen, e.local);
      SoloEventKeepsInv(p, solo, Own(e.local), true);
      solo' := SoloStep(p, solo, e.local);
    } else {
      OtherStepSimulates(s, p, solo, e);
      if e.MarkShared? {
        SoloEventKeepsInv(p, solo, Toggle(e.shared), true);
        solo' := SoloEventStep(p, solo, Toggle(e.shared));
      } else {
        solo' := solo;
      }
    }
  }

  lemma {:induction false} TailIsHonest(s: State, p: Plan, solo: Solo, es: seq<Event>)
    requires Simulates(s, p, solo) && SoloInv(p, solo, true) && s.pendingReleases == 0 && NoneAccepted(s, es)
    ensures Honest(p, s.generation, Run(s, es))
    decreases |es|
  {
    if es == [] {
      LiveIsHonest(s, p, solo);
    } else {
      var e := es[0];
      if e.Stop? || e.Release? {
        StopFreezes(s, p, solo, e);
        assert Step(s, e).generation == s.generation + 1;
        hide Step, Frozen, Honest;
        FrozenRun(Step(s, e), p, es[1..]);
        GenerationGrows(Step(s, e), es[1..]);
        FrozenIsHonest(Run(s, es), p, s.generation);
      } else {
        hide Step, Simulates, SoloInv, Honest, Accepts;
        var solo' := LiveStep(s, p, solo, e);
        TailIsHonest(Step(s, e), p, solo', es[1..]);
      }
    }
  }

  lemma {:induction false} SameGenerationMeansNoStop(s: State, es: seq<Event>)
    requires NoneAccepted(s, es) && Run(s, es).generation == s.generation
    ensures NoCommand(s, es)
    decreases |es|
  {
    if es != [] {
      var t := Step(s, es[0]);
      assert t.generation >= s.generation && (es[0].Stop? || es[0].Release? ==> t.generation > s.generation);
      hide Step, Accepts;
      GenerationGrows(t, es[1..]);
      SameGenerationMeansNoStop(t, es[1..]);
    }
  }

  /**
   Fail-fast, for every interleaving, with stops and releases called at any time after the last
   command: "failed at setup step i" means the logs hold exactly steps 0..i, every earlier one exited
   0 and step i did not; "running", "shared" and "the run command failed" mean every setup step of
   that command's execution exited 0. While no stop was called since, "running" and "shared" also
   mean that the tracked child is that execution's and not yet closed; and if none was pending
   either, the slot does not read "stopped" and has a failed step exactly when it failed.
   */
  lemma FailFast(before: seq<Event>, cmd: Event, after: seq<Event>)
    requires var s := Run(Init(), before);
             Accepts(s, cmd) && NoneAccepted(Step(s, cmd), after) && s.pendingReleases == 0
    ensures var s := Run(Init(), before);
            var t := Run(Step(s, cmd), after);
            && Truthful(PlanStarted(s, cmd), ViewOf(t))
            && (t.generation == s.generation + 1 ==>
                  && (t.state == Running || t.state == Shared ==>
                        t.child.Some? && t.child.value.owner == t.generation)
                  && (s.pendingStops == 0 ==>
                        t.state != Stopped && (t.state == Failed <==> t.failedStep.Some?)))
  {
    RunKeepsInv(Init(), before);
    var s := Run(Init(), before);
    var p := PlanStarted(s, cmd);
    CommandSimulates(s, cmd);
    TailIsHonest(Step(s, cmd), p, SoloStart(), after);
    if s.pendingStops == 0 && Run(Step(s, cmd), after).generation == s.generation + 1 {
      SameGenerationMeansNoStop(Step(s, cmd), after);
      LastExecutionWins(before, cmd, after);
      SoloRunKeepsInv(p, SoloStart(), Relevant(s.generation + 1, after));
    }
  }

  /** A step that is no accepted command, then the rest. */
  lemma Before(s: State, e: Event, es: seq<Event>)
    requires !Accepts(s, e)
    ensures Run(s, [e] + es) == Run(Step(s, e), es)
    ensures NoneAccepted(Step(s, e), es) ==> NoneAccepted(s, [e] + es)
  {
    assert ([e] + es)[1..] == es;
  }

  /** With a release pending, its tail and a new lease take the logs from under the running execution. */
  lemma ReleasedLease(s: State, leaseId: string, sessionId: string)
    requires s.pendingReleases > 0
    ensures var t := Step(Step(s, ReleaseTail), Acquire(leaseId, sessionId));
            t.logs == map[] && t.execs == s.execs && t.generation == s.generation && t.child == s.child
  {
  }

  /** From there the execution fails without a log to show for it. */
  lemma FailsWithoutLogs(s: State, g: nat) returns (after: seq<Event>)
    requires g == s.generation && g in s.execs && s.logs == map[]
    requires s.execs[g].pc.Polling? || s.execs[g].pc.InStep?
    ensures NoneAccepted(s, after)
    ensures Run(s, after).state == Failed && Run(s, after).failedStep.Some? && Run(s, after).logs == map[]
  {
    var polling := s.execs[g].pc.Polling?;
    var a := Env(g, if polling then ReadyTimeout else StepClosed(Some(1), false));
    var b := Env(g, if polling then ResumeReady else ResumeStep);
    var t := Step(s, a);
    assert t.logs == map[];
    assert t.execs[g].pc == if polling then Polled(false) else StepDone(s.execs[g].pc.i, Some(1), false);
    var u := Step(t, b);
    assert u.state == Failed && u.logs == map[];
    hide Step;
    Before(t, b, []);
    Before(s, a, [b] + []);
    after := [a] + ([b] + []);
  }

  lemma ReleaseThenFail(s: State, g: nat) returns (after: seq<Event>)
    requires g == s.generation && g in s.execs && s.pendingReleases > 0
    requires s.execs[g].pc.Polling? || s.execs[g].pc.InStep?
    ensures NoneAccepted(s, after)
    ensures Run(s, after).state == Failed && Run(s, after).failedStep.Some? && Run(s, after).logs == map[]
  {
    ReleasedLease(s, "l", "s");
    var acquire := Acquire("l", "s");
    var t := Step(s, ReleaseTail);
    var u := Step(t, acquire);
    hide Step;
    var rest := FailsWithoutLogs(u, g);
    Before(t, acquire, rest);
    Before(s, ReleaseTail, [acquire] + rest);
    after := [ReleaseTail] + ([acquire] + rest);
  }

  lemma FirstStepAfter(s: State, cmd: Event)
    requires Accepts(s, cmd)
    ensures var t := Step(Step(s, cmd), Env(s.generation + 1, KillDone));
            && t.pendingReleases == s.pendingReleases && t.generation == s.generation + 1 && t.generation in t.execs
            && (t.execs[t.generation].pc.Polling? || t.execs[t.generation].pc.InStep?)
  {
    var t := Step(s, cmd);
    assert t.pendingReleases == s.pendingReleases && t.generation == s.generation + 1 && t.generation in t.execs;
    assert t.execs[t.generation].pc == Killing;
  }

  lemma PendingReleaseBreaksFailFast(s: State, cmd: Event) returns (after: seq<Event>)
    requires Accepts(s, cmd) && s.pendingReleases > 0
    ensures NoneAccepted(Step(s, cmd), after)
    ensures !Truthful(PlanStarted(s, cmd), ViewOf(Run(Step(s, cmd), after)))
  {
    hide Step, SetupPassed;
    var kill := Env(s.generation + 1, KillDone);
    FirstStepAfter(s, cmd);
    var rest := ReleaseThenFail(Step(Step(s, cmd), kill), s.generation + 1);
    assert !Accepts(Step(s, cmd), kill);
    hide Accepts, Run;
    Before(Step(s, cmd), kill, rest);
    after := [kill] + rest;
    NoLogsIsUntrue(PlanStarted(s, cmd), ViewOf(Run(Step(s, cmd), after)));
  }

  lemma NoLogsIsUntrue(p: Plan, v: View)
    requires v.state == Failed && v.failedStep.Some? && v.logs == map[]
    ensures !Truthful(p, v)
  {
  }

  /** Fail-fast holds on every continuation of a command exactly when no release was pending. */
  lemma FailFastExactly(before: seq<Event>, cmd: Event)
    requires Accepts(Run(Init(), before), cmd)
    ensures var s := Run(Init(), before);
            s.pendingReleases == 0 <==>
            (forall after :: NoneAccepted(Step(s, cmd), after) ==>
                               Truthful(PlanStarted(s, cmd), ViewOf(Run(Step(s, cmd), after))))
  {
    var s := Run(Init(), before);
    if s.pendingReleases == 0 {
      forall after | NoneAccepted(Step(s, cmd), after)
        ensures Truthful(PlanStarted(s, cmd), ViewOf(Run(Step(s, cmd), after)))
      {
        FailFast(before, cmd, after);
      }
    } else {
      var after := PendingReleaseBreaksFailFast(s, cmd);
    }
  }

  // ---- Which commands run --------------------------------------------------------------------

  /** The current execution has no setup step, and nothing shown is about one. */
  ghost predicate RunOnly(s: State) {
    && (s.generation in s.execs ==>
          var x := s.execs[s.generation]; x.plan.steps == [] && !x.pc.InStep? && !x.pc.StepDone?)
    && (forall k :: k in s.logs ==> k == RUN_STEP)
    && !s.phase.SetupPhase?
  }

  lemma CurrentKeepsRunOnly(s: State, e: Local)
    requires RunOnly(s) && s.generation in s.execs
    ensures RunOnly(EnvStep(s, s.generation, e))
  {
    match e {
      case KillDone =>
      case StepClosed(code, timedOut) =>
      case ResumeStep =>
      case Poll =>
      case ProbeAnswered =>
      case ReadyTimeout =>
      case ResumeReady =>
      case ProcExited(code) =>
      case ProcClosed(code) =>
    }
  }

  lemma StepKeepsRunOnly(s: State, e: Event)
    requires Inv(s) && RunOnly(s) && !Accepts(s, e)
    ensures RunOnly(Step(s, e))
  {
    if e.Env? && e.gen in s.execs {
      if e.gen == s.generation {
        CurrentKeepsRunOnly(s, e.local);
      } else {
        SupersededIsInvisible(s, e.gen, e.local);
      }
      hide EnvStep, Inv;
    }
  }

  lemma {:induction false} RunKeepsRunOnly(s: State, es: seq<Event>)
    requires Inv(s) && RunOnly(s) && NoneAccepted(s, es)
    ensures RunOnly(Run(s, es))
    decreases |es|
  {
    hide Inv, RunOnly, Step, Accepts;
    if es != [] {
      StepKeepsInv(s, es[0]);
      StepKeepsRunOnly(s, es[0]);
      RunKeepsRunOnly(Step(s, es[0]), es[1..]);
    }
  }

  /**
   A restart runs no setup step, whatever happens until the next command is accepted: stops, releases
   and leases, events of any execution, and whatever was pending.
   */
  lemma RestartRunsNoSetup(before: seq<Event>, confined: bool, after: seq<Event>)
    requires var s := Run(Init(), before);
             Accepts(s, Restart(confined)) && NoneAccepted(Step(s, Restart(confined)), after)
    ensures var t := Run(Step(Run(Init(), before), Restart(confined)), after);
            (forall k :: k in t.logs ==> k == RUN_STEP) && !t.phase.SetupPhase?
  {
    RunKeepsInv(Init(), before);
    var s := Run(Init(), before);
    StepKeepsInv(s, Restart(confined));
    RunKeepsRunOnly(Step(s, Restart(confined)), after);
  }

  /** Only one port is spoken of, and a lease with a spec has the given one. */
  ghost predicate OnePort(s: State, spec: Spec, port: int) {
    && (s.generation in s.execs ==> s.execs[s.generation].plan.port == port)
    && (s.failureReason.Some? && s.failureReason.value.NoResponse? ==> s.failureReason.value.port == port)
    && (s.lease.Some? && s.lease.value.spec.Some? ==> s.lease.value.spec.value == spec && s.lease.value.appPort == port)
  }

  lemma EnvKeepsPlan(s: State, e: Local)
    requires s.generation in s.execs
    ensures var t := EnvStep(s, s.generation, e);
            && t.generation in t.execs && t.generation == s.generation && t.lease == s.lease
            && t.execs[t.generation].plan == s.execs[s.generation].plan
  {
    match e {
      case KillDone =>
      case StepClosed(code, timedOut) =>
      case ResumeStep =>
      case Poll =>
      case ProbeAnswered =>
      case ReadyTimeout =>
      case ResumeReady =>
      case ProcExited(code) =>
      case ProcClosed(code) =>
    }
  }

  lemma ReadyReasons(s: State, g: nat, ready: bool)
    requires g in s.execs && g == s.generation
    ensures var r := OnResumeReady(s, g, ready).failureReason;
            r == s.failureReason || (r.Some? && (r.value.NoResponse? ==> r.value.port == s.execs[g].plan.port))
  {
  }

  lemma OtherReasons(s: State, e: Local)
    requires s.generation in s.execs && !e.ResumeReady?
    ensures var r := EnvStep(s, s.generation, e).failureReason;
            r == s.failureReason || (r.Some? && !r.value.NoResponse?)
  {
  }

  lemma CurrentKeepsOnePort(s: State, spec: Spec, port: int, e: Local)
    requires OnePort(s, spec, port) && s.generation in s.execs
    ensures OnePort(EnvStep(s, s.generation, e), spec, port)
  {
    EnvKeepsPlan(s, e);
    if e.ResumeReady? {
      var x := s.execs[s.generation];
      if x.pc.Polled? {
        ReadyReasons(s, s.generation, x.pc.ready);
        assert EnvStep(s, s.generation, e) == OnResumeReady(s, s.generation, x.pc.ready);
      } else {
        assert EnvStep(s, s.generation, e) == s;
      }
      hide EnvStep, OnResumeReady;
    } else {
      OtherReasons(s, e);
      hide EnvStep;
    }
  }

  lemma StepKeepsOnePort(s: State, spec: Spec, port: int, e: Event)
    requires Inv(s) && OnePort(s, spec, port) && !Accepts(s, e)
    ensures OnePort(Step(s, e), spec, port)
  {
    if e.Env? && e.gen in s.execs {
      if e.gen == s.generation {
        CurrentKeepsOnePort(s, spec, port, e.local);
      } else {
        SupersededIsInvisible(s, e.gen, e.local);
      }
      hide EnvStep, Inv;
    } else if e.Stop? || e.Release? {
      assert Step(s, e).generation !in s.execs;
    }
  }

  lemma {:induction false} RunKeepsOnePort(s: State, spec: Spec, port: int, es: seq<Event>)
    requires Inv(s) && OnePort(s, spec, port) && NoneAccepted(s, es)
    ensures OnePort(Run(s, es), spec, port)
    decreases |es|
  {
    hide Inv, OnePort, Step, Accepts;
    if es != [] {
      StepKeepsInv(s, es[0]);
      StepKeepsOnePort(s, spec, port, es[0]);
      RunKeepsOnePort(Step(s, es[0]), spec, port, es[1..]);
    }
  }

  /** The logs say that these setup commands all exited 0 and that this run command was started after them. */
  ghost predicate RanAll(setup: seq<string>, run: string, logs: map<int, Log>) {
    && (forall k :: k in logs <==> k == RUN_STEP || 0 <= k < |setup|)
    && logs[RUN_STEP].command == run
    && forall k :: 0 <= k < |setup| ==> logs[k].command == setup[k] && logs[k].exitCode == Some(0)
  }

  /** Of these setup commands the first `i` exited 0, the next one did not, and nothing else was started. */
  ghost predicate RanUpTo(setup: seq<string>, i: int, logs: map<int, Log>) {
    && 0 <= i < |setup| && (forall k :: k in logs <==> 0 <= k <= i)
    && (forall k :: 0 <= k <= i ==> logs[k].command == setup[k] && (logs[k].exitCode == Some(0) <==> k != i))
  }

  lemma SeenCommands(t: State, p: Plan)
    ensures SetupPassed(p, ViewOf(t).logs) ==> RanAll(p.steps, p.run, t.logs)
    ensures forall i: nat :: FailedAt(p, ViewOf(t), i) ==> RanUpTo(p.steps, i, t.logs)
  {
    var seen := ViewOf(t).logs;
    assert forall k :: k in t.logs <==> k in seen;
    assert forall k :: k in t.logs ==> t.logs[k].command == seen[k].command && t.logs[k].exitCode == seen[k].exitCode;
  }

  /**
   What a command runs, over every interleaving with no release pending at its acceptance. A start or
   rebuild runs the commands its spec's own `setup` lists, in order, and a restart none of them; then
   the spec's `run`. A start takes the port its spec fixes, else the one it was given; the others keep
   the lease's. "running", "shared" and a failed run command mean that all of it came that far, "failed
   at step i" that it stopped there.
   */
  lemma RunsItsOwnSpec(before: seq<Event>, cmd: Event, after: seq<Event>)
    requires var s := Run(Init(), before);
             Accepts(s, cmd) && NoneAccepted(Step(s, cmd), after) && s.pendingReleases == 0
    ensures var s := Run(Init(), before);
            var t := Run(Step(s, cmd), after);
            var spec := if cmd.Start? then cmd.spec else s.lease.value.spec.value;
            var setup := if cmd.Restart? then [] else spec.setup;
            && (t.state == Running || t.state == Shared || (t.state == Failed && t.failedStep == Some(RUN_STEP)) ==>
                  RanAll(setup, spec.run, t.logs))
            && (t.state == Failed && t.failedStep != Some(RUN_STEP) ==>
                  t.failedStep.Some? && RanUpTo(setup, t.failedStep.value, t.logs))
  {
    FailFast(before, cmd, after);
    var s := Run(Init(), before);
    SeenCommands(Run(Step(s, cmd), after), PlanStarted(s, cmd));
    hide Step, Run, SetupPassed, FailedAt, RanAll, RanUpTo, NoneAccepted;
  }

  /** Until the next accepted command, the port waited for and the leased one are the command's own. */
  lemma RunsOnItsPort(before: seq<Event>, cmd: Event, after: seq<Event>)
    requires var s := Run(Init(), before);
             Accepts(s, cmd) && NoneAccepted(Step(s, cmd), after)
    ensures var s := Run(Init(), before);
            var t := Run(Step(s, cmd), after);
            var spec := if cmd.Start? then cmd.spec else s.lease.value.spec.value;
            var port := if !cmd.Start? then s.lease.value.appPort
                        else if cmd.spec.fixedPort.Some? then cmd.spec.fixedPort.value else cmd.appPort;
            && (t.failureReason.Some? && t.failureReason.value.NoResponse? ==> t.failureReason.value.port == port)
            && (t.lease.Some? && t.lease.value.spec.Some? ==>
                  t.lease.value.spec.value == spec && t.lease.value.appPort == port)
  {
    RunKeepsInv(Init(), before);
    var s := Run(Init(), before);
    var spec := if cmd.Start? then cmd.spec else s.lease.value.spec.value;
    var port := if !cmd.Start? then s.lease.value.appPort
                else if cmd.spec.fixedPort.Some? then cmd.spec.fixedPort.value else cmd.appPort;
    StepKeepsInv(s, cmd);
    assert OnePort(Step(s, cmd), spec, port);
    hide Step, Run, Accepts, Inv;
    RunKeepsOnePort(Step(s, cmd), spec, port, after);
  }

  /** The state before event `k` of a run. */
  function At(es: seq<Event>, k: nat): State
    requires k <= |es|
  {
    Run(Init(), es[..k])
  }

  lemma {:induction false} RunSnoc(s: State, es: seq<Event>, e: Event)
    ensures Run(s, es + [e]) == Step(Run(s, es), e)
    decreases |es|
  {
    hide Step;
    if es == [] {
      assert [] + [e] == [e] && [e][1..] == [];
    } else {
      assert (es + [e])[1..] == es[1..] + [e];
      RunSnoc(Step(s, es[0]), es[1..], e);
    }
  }

  ghost predicate StartedAt(es: seq<Event>, i: nat)
    requires i < |es|
  {
    es[i].Start? && Accepts(At(es, i), es[i])
  }

  /** Event `i` is the last accepted start among the first `n`, and the lease holds what it asked for. */
  ghost predicate HoldsStart(es: seq<Event>, i: nat, n: nat, lease: Lease)
    requires i < n <= |es|
  {
    && StartedAt(es, i) && (forall m :: i < m < n ==> !StartedAt(es, m))
    && lease.spec == Some(es[i].spec)
    && lease.appPort == if es[i].spec.fixedPort.Some? then es[i].spec.fixedPort.value else es[i].appPort
  }

  lemma LeaseStep(s: State, e: Event)
    requires HasSpec(Step(s, e))
    ensures if e.Start? && Accepts(s, e) then
              && Step(s, e).lease.value.spec == Some(e.spec)
              && Step(s, e).lease.value.appPort
                 == (if e.spec.fixedPort.Some? then e.spec.fixedPort.value else e.appPort)
            else Step(s, e).lease == s.lease
  {
    if e.Env? && e.gen in s.execs {
      LeaseOfEnv(s, e.gen, e.local);
      hide EnvStep;
    }
  }

  lemma LeaseOfEnv(s: State, g: nat, e: Local)
    ensures EnvStep(s, g, e).lease == s.lease
  {
  }

  /** What a restart or rebuild repeats: the lease holds the spec and port of the last accepted start. */
  lemma {:induction false} LeaseHoldsTheLastStart(es: seq<Event>, n: nat)
    requires n <= |es| && HasSpec(At(es, n))
    ensures exists i: nat :: i < n && HoldsStart(es, i, n, At(es, n).lease.value)
    decreases n
  {
    assert es[..0] == [];
    if n > 0 {
      var s, e := At(es, n - 1), es[n - 1];
      assert es[..n] == es[..n - 1] + [e];
      RunSnoc(Init(), es[..n - 1], e);
      LeaseStep(s, e);
      hide Step, Run, Accepts;
      if StartedAt(es, n - 1) {
        assert HoldsStart(es, n - 1, n, At(es, n).lease.value);
      } else {
        LeaseHoldsTheLastStart(es, n - 1);
        var i: nat :| i < n - 1 && HoldsStart(es, i, n - 1, s.lease.value);
        assert HoldsStart(es, i, n, At(es, n).lease.value);
      }
    }
  }

  // ---- Stopping ------------------------------------------------------------------------------

  /** No execution is current and no stop is pending: the slot reads as stopped. */
  ghost predicate AtRest(s: State) {
    s.generation !in s.execs ==>
      s.child.None? && (s.pendingStops == 0 && s.pendingReleases == 0 ==> s.state == Stopped && s.phase == Idle)
  }

  lemma {:induction false} StopWins(s: State, es: seq<Event>)
    requires Inv(s) && AtRest(s)
    ensures AtRest(Run(s, es))
    decreases |es|
  {
    if es != [] {
      var e := es[0];
      StepKeepsInv(s, e);
      if e.Env? {
        EnvKeepsInv(s, e.gen, e.local);
        if e.gen != s.generation { SupersededIsInvisible(s, e.gen, e.local); }
      }
      StopWins(Step(s, e), es[1..]);
    }
  }

  /**
   The guard is exact. `stop` resumes without looking at the generation, so while an execution is
   current its tail leaves what a caller sees alone exactly when no stop was pending.
   */
  lemma StopTailClobbers(s: State, p: Plan, solo: Solo)
    requires Simulates(s, p, solo) && SoloInv(p, solo, false)
    ensures ViewOf(Step(s, StopTail)) == solo.view <==> s.pendingStops == 0
  {
  }

  /** A start accepted while a stop is pending ends up reading "stopped" with its setup still running. */
  lemma StartDuringStopIsLost()
    ensures var spec := Spec(["npm ci"], "npm start", None);
            var s := Run(Init(), [Acquire("l", "s"), Stop, Start(spec, 4000, true), Env(2, KillDone), StopTail]);
            2 in s.execs && s.execs[2].pc == InStep(0) && s.generation == 2 && s.state == Stopped && s.phase == Idle
  {
    var spec := Spec(["npm ci"], "npm start", None);
    var a := Step(Init(), Acquire("l", "s"));
    var b := Step(a, Stop);
    var c := Step(b, Start(spec, 4000, true));
    var d := Step(c, Env(2, KillDone));
    assert Run(d, [StopTail]) == Step(d, StopTail);
    assert [Env(2, KillDone), StopTail][1..] == [StopTail];
    assert Run(c, [Env(2, KillDone), StopTail]) == Step(d, StopTail);
    assert [Start(spec, 4000, true), Env(2, KillDone), StopTail][1..] == [Env(2, KillDone), StopTail];
    assert Run(b, [Start(spec, 4000, true), Env(2, KillDone), StopTail]) == Step(d, StopTail);
    assert [Stop, Start(spec, 4000, true), Env(2, KillDone), StopTail][1..]
        == [Start(spec, 4000, true), Env(2, KillDone), StopTail];
  }

  /** The readiness loop's early exit for a child that is already gone is never taken. */
  lemma EarlyExitNeverFires(es: seq<Event>)
    ensures var s := Run(Init(), es);
            s.generation in s.execs && s.execs[s.generation].pc.Polling? ==>
              !(s.child.None? && s.state == Starting)
  {
    RunKeepsInv(Init(), es);
  }

  // ---- The object ----------------------------------------------------------------------------

  class Supervisor {
    var lease: Option<Lease>
    var state: PreviewState
    var phase: Phase
    var logs: map<int, Log>
    var child: Option<Child>
    var failedStep: Option<int>
    var failureReason: Option<Reason>
    var generation: nat
    var forwarding: bool
    var execs: map<nat, Exec>
    var pendingStops: nat
    var pendingReleases: nat

    ghost function Abs(): State
      reads this
    {
      State(lease, state, phase, logs, child, failedStep, failureReason, generation, forwarding, execs,
            pendingStops, pendingReleases)
    }

    constructor ()
      ensures Abs() == Init()
    {
      lease, state, phase, logs, child := None, Stopped, Idle, map[], None;
      failedStep, failureReason, generation, forwarding := None, None, 0, false;
      execs, pendingStops, pendingReleases := map[], 0, 0;
    }

    method AcquireLease(leaseId: string, sessionId: string) returns (ok: bool)
      modifies this
      ensures Abs() == Step(old(Abs()), Acquire(leaseId, sessionId))
      ensures ok <==> lease.Some? && lease.value.leaseId == leaseId
    {
      if lease.Some? && lease.value.leaseId != leaseId { return false; }
      if lease.None? {
        lease := Some(Lease(leaseId, sessionId, None, 0));
        state, phase, logs, failedStep, failureReason := Stopped, Idle, map[], None, None;
      }
      ok := true;
    }

    method StartPreview(spec: Spec, appPort: int, confined: bool) returns (ok: bool)
      modifies this
      ensures Abs() == Step(old(Abs()), Start(spec, appPort, confined))
      ensures ok <==> Accepts(old(Abs()), Start(spec, appPort, confined))
    {
      if lease.None? || !confined { return false; }
      lease := Some(lease.value.(spec := Some(spec), appPort := spec.fixedPort.GetOr(appPort)));
      forwarding := true;
      BeginExecution(true);
      ok := true;
    }

    method RestartPreview(confined: bool) returns (ok: bool)
      modifies this
      ensures Abs() == Step(old(Abs()), Restart(confined))
      ensures ok <==> Accepts(old(Abs()), Restart(confined))
    {
      if lease.None? || lease.value.spec.None? || !confined { return false; }
      BeginExecution(false);
      ok := true;
    }

    method RebuildPreview(confined: bool) returns (ok: bool)
      modifies this
      ensures Abs() == Step(old(Abs()), Rebuild(confined))
      ensures ok <==> Accepts(old(Abs()), Rebuild(confined))
    {
      if lease.None? || lease.value.spec.None? || !confined { return false; }
      BeginExecution(true);
      ok := true;
    }

    method BeginExecution(full: bool)
      requires lease.Some? && lease.value.spec.Some?
      modifies this
      ensures Abs() == Execute(old(Abs()), full)
    {
      generation := generation + 1;
      var gen := generation;
      state, phase, failedStep, failureReason, logs := Starting, Idle, None, None, map[];
      child := None;
      var spec := lease.value.spec.value;
      var plan := Plan(if full then spec.setup else [], spec.run, lease.value.appPort);
      execs := execs[gen := Exec(plan, Killing, NotSpawned)];
    }

    method BeginStop(releasing: bool)
      modifies this
      ensures Abs() == Step(old(Abs()), if releasing then Release else Stop)
    {
      generation := generation + 1;
      child := None;
      if releasing { pendingReleases := pendingReleases + 1; } else { pendingStops := pendingStops + 1; }
    }

    /** The tail of `stop` (and of `release`) after its await. */
    method FinishStop(releasing: bool)
      requires if releasing then pendingReleases > 0 else pendingStops > 0
      modifies this
      ensures Abs() == Step(old(Abs()), if releasing then ReleaseTail else StopTail)
    {
      forwarding, state, phase := false, Stopped, Idle;
      if releasing {
        pendingReleases := pendingReleases - 1;
        lease := None;
      } else {
        pendingStops := pendingStops - 1;
      }
    }

    method ToggleShared(shared: bool)
      modifies `state
      ensures Abs() == Step(old(Abs()), MarkShared(shared))
    {
      if shared && state == Running { state := Shared; }
      else if !shared && state == Shared { state := Running; }
    }

    method NextStep(g: nat, i: nat)
      requires g in execs
      modifies `phase, `logs, `child, `execs
      ensures Abs() == Advance(old(Abs()), g, i)
    {
      var plan := execs[g].plan;
      if i < |plan.steps| {
        phase := SetupPhase(i, plan.steps[i]);
        logs := logs[i := Log(g, plan.steps[i], None)];
        execs := execs[g := execs[g].(pc := InStep(i))];
      } else {
        logs := logs[RUN_STEP := Log(g, plan.run, None)];
        phase := RunPhase(plan.run);
        child := Some(Child(g, None));
        execs := execs[g := Exec(plan, Polling, Alive)];
      }
    }

    method AfterKill(g: nat)
      requires g in execs && execs[g].pc.Killing?
      modifies this
      ensures Abs() == Step(old(Abs()), Env(g, KillDone))
    {
      if g != generation {
        execs := execs[g := execs[g].(pc := Finished)];
        return;
      }
      NextStep(g, 0);
    }

    method RecordExit(g: nat, step: int, code: ExitCode)
      modifies `logs
      ensures Abs() == WriteExit(old(Abs()), g, step, code)
    {
      if step in logs && logs[step].owner == g {
        logs := logs[step := logs[step].(exitCode := code)];
      }
    }

    method StepProcessClosed(g: nat, code: ExitCode, timedOut: bool)
      requires g in execs && execs[g].pc.InStep?
      modifies `logs, `execs
      ensures Abs() == Step(old(Abs()), Env(g, StepClosed(code, timedOut)))
    {
      var i := execs[g].pc.i;
      RecordExit(g, i, if timedOut then None else code);
      execs := execs[g := execs[g].(pc := StepDone(i, if timedOut then Some(1) else code, timedOut))];
    }

    method AfterStep(g: nat)
      requires g in execs && execs[g].pc.StepDone?
      modifies this
      ensures Abs() == Step(old(Abs()), Env(g, ResumeStep))
    {
      var pc := execs[g].pc;
      if g == generation && pc.code == Some(0) {
        NextStep(g, pc.i + 1);
        return;
      }
      execs := execs[g := execs[g].(pc := Finished)];
      if g != generation { return; }
      state, failedStep, phase := Failed, Some(pc.i), Idle;
      failureReason := Some(if pc.timedOut then StepTimedOut(pc.i) else StepExited(pc.i, pc.code));
    }

    /** One turn of the readiness loop, up to its probe. */
    method PollOnce(g: nat)
      requires g in execs && execs[g].pc.Polling?
      modifies `execs
      ensures Abs() == Step(old(Abs()), Env(g, Poll))
    {
      if g != generation || (child.None? && state == Starting) {
        execs := execs[g := execs[g].(pc := Polled(false))];
      }
    }

    method ReadinessSettled(g: nat, answered: bool)
      requires g in execs && execs[g].pc.Polling?
      modifies `execs
      ensures Abs() == Step(old(Abs()), Env(g, if answered then ProbeAnswered else ReadyTimeout))
    {
      execs := execs[g := execs[g].(pc := Polled(answered))];
    }

    method AfterReady(g: nat)
      requires g in execs && execs[g].pc.Polled?
      modifies this
      ensures Abs() == Step(old(Abs()), Env(g, ResumeReady))
    {
      var ready := execs[g].pc.ready;
      execs := execs[g := execs[g].(pc := Finished)];
      if g != generation { return; }
      if ready {
        if state == Starting { state := Running; }
        return;
      }
      state, failedStep := Failed, Some(RUN_STEP);
      if child.Some? && child.value.exited.Some? && child.value.exited.value.Some? {
        failureReason := Some(ExitedBeforeServing(child.value.exited.value.value));
      } else {
        failureReason := Some(NoResponse(execs[g].plan.port));
      }
    }

    method RunProcessExited(g: nat, code: ExitCode)
      requires g in execs && execs[g].process.Alive?
      modifies `execs, `child
      ensures Abs() == Step(old(Abs()), Env(g, ProcExited(code)))
    {
      execs := execs[g := execs[g].(process := Exited(code))];
      if child.Some? && child.value.owner == g { child := Some(Child(g, Some(code))); }
    }

    /** The tracked child is gone: a preview that was serving has failed. */
    method LoseChild(code: ExitCode)
      modifies `child, `state, `failedStep, `failureReason, `phase
      ensures Abs() == ChildLost(old(Abs()), code)
    {
      child := None;
      if state == Running || state == Shared || state == Starting {
        state, failedStep, failureReason, phase := Failed, Some(RUN_STEP), Some(RunExited(code)), Idle;
      }
    }

    /** The run command's close handler. */
    method RunProcessClosed(g: nat, code: ExitCode)
      requires g in execs && (execs[g].process == Alive || execs[g].process == Exited(code))
      modifies this
      ensures Abs() == Step(old(Abs()), Env(g, ProcClosed(code)))
    {
      assert Step(Abs(), Env(g, ProcClosed(code))) == OnProcClosed(Abs(), g, code);
      hide WriteExit, ChildLost;
      execs := execs[g := execs[g].(process := Closed)];
      RecordExit(g, RUN_STEP, code);
      if g == generation { LoseChild(code); }
    }
  }

  // ---- Captured output -----------------------------------------------------------------------

  function LastOf<T>(s: seq<T>, cap: nat): seq<T> {
    if |s| > cap then s[|s| - cap..] else s
  }

  function Joined<T>(chunks: seq<seq<T>>): seq<T> {
    if chunks == [] then [] else Joined(chunks[..|chunks| - 1]) + chunks[|chunks| - 1]
  }

  /** The output part of one log entry: two streams with a cap each, one flag for both. */
  class CapturedOutput {
    var stdout: string
    var stderr: string
    var truncated: bool
    const stdoutCap: nat
    const stderrCap: nat

    /** Each buffer is the end of what its stream produced, and the flag says whether either was cut. */
    ghost predicate Holds(out: seq<string>, err: seq<string>)
      reads this
    {
      && stdout == LastOf(Joined(out), stdoutCap)
      && stderr == LastOf(Joined(err), stderrCap)
      && (truncated <==> |Joined(out)| > stdoutCap || |Joined(err)| > stderrCap)
    }

    constructor (stdoutCap: nat, stderrCap: nat)
      ensures Holds([], []) && this.stdoutCap == stdoutCap && this.stderrCap == stderrCap
    {
      stdout, stderr, truncated, this.stdoutCap, this.stderrCap := "", "", false, stdoutCap, stderrCap;
    }

    /** The data handler of one pipe, whatever was produced on either so far. */
    method StdoutData(chunk: string, ghost out: seq<string>, ghost err: seq<string>)
      requires Holds(out, err)
      modifies `stdout, `truncated
      ensures Holds(out + [chunk], err)
    {
      assert (out + [chunk])[..|out|] == out;
      var next := stdout + chunk;
      if |next| > stdoutCap {
        stdout := next[|next| - stdoutCap..];
        truncated := true;
      } else {
        stdout := next;
      }
    }

    /** The other pipe's handler, which cuts at its own cap and raises the same flag. */
    method StderrData(chunk: string, ghost out: seq<string>, ghost err: seq<string>)
      requires Holds(out, err)
      modifies `stderr, `truncated
      ensures Holds(out, err + [chunk])
    {
      assert (err + [chunk])[..|err|] == err;
      var next := stderr + chunk;
      if |next| > stderrCap {
        stderr := next[|next| - stderrCap..];
        truncated := true;
      } else {
        stderr := next;
      }
    }
  }
}
