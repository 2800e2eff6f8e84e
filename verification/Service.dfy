/** One supervised service (orchestrator/service.py) as a step system.

    The code is a single-threaded asyncio program, so whatever runs between two suspending awaits is
    atomic.  There is one action for each such segment of the run loop, of the two watchers that accompany
    a live process, and of the supervisor's `restart` and `stop` calls; the environment contributes clock
    ticks, process exits, gate answers and probe results.  `signals` and `log` record what happened; no
    transition reads them. */
module ServiceModel {
  import opened Wrappers

  /** The n-th process the service ever started. */
  type Inc = nat

  datatype Sender = Bounce | ReadyTimeout | PathWatch | GateWatch | PostExit | Stop

  /** One sweep of the service's containment group: the incarnation the sender decided to stop, and the one
      registered for the service's name when the signal went out. */
  datatype Signal = Signal(sender: Sender, kill: bool, meant: Option<Inc>, hit: Option<Inc>)

  datatype Verdict = GateStopped(flagLeft: bool) | Bounced | NoRetry | GateFailing | Charged

  datatype Event =
    | GateRound(failing: seq<string>)
    | Attempt
    | BecameReady
    | EnteredBlocked
    | Judged(inc: Option<Inc>, code: int, verdict: Verdict, at: real)

  /** `Overflowed`: computing the delay raised, and the run loop died of it. */
  datatype Ending = Stopped | NotWorthRetrying | OverBudget | Overflowed

  datatype Pc =
    | Depending(k: nat, woken: bool)
    | Top
    | Gating
    | Parked
    | Unparking
    | Rendering
    | Forking
    | Probing
    | AwaitExit
    | Reaping
    | Draining
    | Judging(inc: Option<Inc>, code: int)
    | BackingOff(delay: real, began: real)
    | Ended(how: Ending)

  /** A watcher task: absent, polling, or waiting inside `_terminate_group` for the process it stopped. */
  datatype Watcher = Off | Polling | Terminating(meant: Inc)

  datatype Stopper = NotAsked | StopWaiting | StopDone

  datatype Config = Config(
    gates: seq<string>, continuous: bool, after: seq<string>, noRetry: set<int>,
    maxRestarts: nat, window: real, backoffInitial: real, backoffMax: real)

  /** The bounds `RestartConfig.parse` enforces. */
  predicate ValidConfig(c: Config) {
    c.window > 0.0 && c.backoffInitial > 0.0 && c.backoffMax > 0.0
  }

  /** The process side: `self.proc` and what asyncio has reaped, the incarnation the containment has
      registered for the name, and the tasks that may signal it. */
  datatype Life = Life(
    proc: Option<Inc>,
    registered: Option<Inc>,
    codes: map<Inc, int>,
    next: Inc,
    gateW: Watcher,
    pathW: Watcher,
    bounces: seq<Inc>)

  datatype Svc = Svc(
    pc: Pc,
    stopping: bool,
    bounce: bool,
    gateStop: bool,
    failTimes: seq<real>,
    restarts: nat,
    ready: bool,
    life: Life,
    stopper: Stopper,
    now: real,
    signals: seq<Signal>,
    log: seq<Event>,
    stopNext: Inc)

  datatype EnvAct = Tick(d: real) | Exited(code: int)

  datatype DepAct = DepWake | DepGo(nextSet: bool) | DepQuit

  datatype GateAct =
    | LoopTop
    | GateAnswer(failing: seq<string>)
    | ParkWake
    | ParkAnswer(failing: seq<string>)

  datatype SpawnAct = RenderDone(ok: bool) | ForkDone(ok: bool, watches: bool)

  datatype RunAct = ProbeEnds(ready: bool) | ProbeTimeout | SeeExit | Reaped

  datatype JudgeAct = Drained | JudgeAnswer(failing: seq<string>) | BackoffOver

  datatype WatchAct =
    | GateQuit | GateCloses | GateKills | GateCancelled
    | PathQuit | PathMoves | PathKills | PathCancelled

  datatype CallAct = BounceCall | BounceWaitOver(i: nat) | StopCall | StopWaitOver

  datatype Action =
    | Env(env: EnvAct)
    | Dep(dep: DepAct)
    | Gate(gate: GateAct)
    | Spawn(spawn: SpawnAct)
    | Run(run: RunAct)
    | Judge(judge: JudgeAct)
    | Watch(watch: WatchAct)
    | Call(call: CallAct)

  // ---- Transitions ---------------------------------------------------------------------------------

  /** `self.proc is not None and self.proc.returncode is None` */
  predicate Live(l: Life) {
    l.proc.Some? && l.proc.value !in l.codes
  }

  function Init(c: Config): Svc {
    Svc(if |c.after| == 0 then Top else Depending(0, false), false, false, false, [], 0, false,
        Life.Life(None, None, map[], 0, Off, Off, []), NotAsked, 0.0, [], [], 0)
  }

  /** `Containment.sweep`: the signal lands on whatever is registered for the name now. */
  function Sweep(s: Svc, sender: Sender, kill: bool, meant: Option<Inc>): Svc {
    s.(signals := s.signals + [Signal(sender, kill, meant, s.life.registered)])
  }

  /** The entries of `ts` younger than the window. */
  function Young(ts: seq<real>, now: real, window: real): seq<real> {
    if ts == [] then [] else (if now - ts[0] < window then [ts[0]] else []) + Young(ts[1..], now, window)
  }

  function Pow2(n: nat): real {
    if n == 0 then 1.0 else 2.0 * Pow2(n - 1)
  }

  /** `2 ** (n - 1)` is multiplied by a float, which raises unless it is below 2 to the power of 1024. */
  const MOST_DOUBLINGS := 1024

  /** The delay after the n-th exit still in the window. */
  function Backoff(c: Config, n: nat): real
    requires n > 0
  {
    var d := c.backoffInitial * Pow2(n - 1);
    if d < c.backoffMax then d else c.backoffMax
  }

  /** The budgeted tail of the exit classification. */
  function Charge(c: Config, s: Svc, inc: Option<Inc>, code: int): Svc {
    var times := Young(s.failTimes, s.now, c.window) + [s.now];
    s.(failTimes := times,
       restarts := s.restarts + 1,
       log := s.log + [Judged(inc, code, Charged, s.now)],
       pc := if |times| > c.maxRestarts then Ended(OverBudget)
             else if |times| > MOST_DOUBLINGS then Ended(Overflowed)
             else BackingOff(Backoff(c, |times|), s.now))
  }

  /** What `run` does with the code `_run_once` returned. */
  function Classify(c: Config, s: Svc, inc: Option<Inc>, code: int): Svc {
    if s.stopping then s.(pc := Ended(Stopped))
    else if s.gateStop then
      s.(gateStop := false, pc := Top, log := s.log + [Judged(inc, code, GateStopped(s.bounce), s.now)])
    else if s.bounce then
      s.(bounce := false, pc := Top, log := s.log + [Judged(inc, code, Bounced, s.now)])
    else if code in c.noRetry then
      s.(pc := Ended(NotWorthRetrying), log := s.log + [Judged(inc, code, NoRetry, s.now)])
    else if |c.gates| > 0 then s.(pc := Judging(inc, code))
    else Charge(c, s, inc, code)
  }

  function Restart(s: Svc): Svc {
    if s.stopping || s.bounce || !Live(s.life) then s
    else
      Sweep(s.(bounce := true, life := s.life.(bounces := s.life.bounces + [s.life.proc.value])),
            Bounce, false, s.life.proc)
  }

  function RestartEscalates(s: Svc, i: nat): Svc
    requires i < |s.life.bounces|
  {
    var p := s.life.bounces[i];
    var s' := s.(life := s.life.(bounces := s.life.bounces[..i] + s.life.bounces[i + 1..]));
    if p in s.life.codes then s' else Sweep(s', Bounce, true, Some(p))
  }

  function Forked(c: Config, l: Life, watches: bool): Life {
    l.(proc := Some(l.next), registered := Some(l.next), next := l.next + 1,
       gateW := if c.continuous then Polling else Off,
       pathW := if watches then Polling else Off)
  }

  predicate CanEnv(s: Svc, a: EnvAct) {
    match a
    case Tick(d) => d >= 0.0
    case Exited(_) => Live(s.life)
  }

  function StepEnv(s: Svc, a: EnvAct): Svc
    requires CanEnv(s, a)
  {
    match a
    case Tick(d) => s.(now := s.now + d)
    case Exited(code) => s.(life := s.life.(codes := s.life.codes[s.life.proc.value := code]))
  }

  predicate CanDep(c: Config, s: Svc, a: DepAct) {
    match a
    case DepWake => s.pc.Depending? && !s.pc.woken
    case DepGo(_) => s.pc.Depending? && s.pc.woken && !s.stopping && s.pc.k < |c.after|
    case DepQuit => s.pc.Depending? && s.stopping
  }

  function StepDep(c: Config, s: Svc, a: DepAct): Svc
    requires CanDep(c, s, a)
  {
    match a
    case DepWake => s.(pc := Depending(s.pc.k, true))
    case DepGo(nextSet) => s.(pc := if s.pc.k + 1 == |c.after| then Top else Depending(s.pc.k + 1, nextSet))
    case DepQuit => s.(pc := Ended(Stopped))
  }

  /** What a gate round can answer: some of the required gates fail. */
  predicate Required(c: Config, failing: seq<string>) {
    forall g | g in failing :: g in c.gates
  }

  predicate CanGate(c: Config, s: Svc, a: GateAct) {
    match a
    case LoopTop => s.pc.Top?
    case GateAnswer(failing) => s.pc.Gating? && Required(c, failing)
    case ParkWake => s.pc.Parked?
    case ParkAnswer(failing) => s.pc.Unparking? && Required(c, failing)
  }

  function StepGate(c: Config, s: Svc, a: GateAct): Svc
    requires CanGate(c, s, a)
  {
    match a
    case LoopTop =>
      if s.stopping then s.(pc := Ended(Stopped))
      else if |c.gates| > 0 then s.(pc := Gating)
      else s.(pc := Rendering, log := s.log + [Attempt])
    case GateAnswer(failing) =>
      if |failing| == 0 then s.(pc := Rendering, log := s.log + [GateRound(failing)] + [Attempt])
      else s.(failTimes := [], pc := Parked, log := s.log + [GateRound(failing)] + [EnteredBlocked])
    case ParkWake => s.(pc := if s.stopping then Top else Unparking)
    case ParkAnswer(failing) =>
      s.(pc := if |failing| == 0 then Top else Parked, log := s.log + [GateRound(failing)])
  }

  predicate CanSpawn(s: Svc, a: SpawnAct) {
    if a.RenderDone? then s.pc.Rendering? else s.pc.Forking?
  }

  function StepSpawn(c: Config, s: Svc, a: SpawnAct): Svc
    requires CanSpawn(s, a)
  {
    if !a.ok then Classify(c, s, None, 127)
    else if a.RenderDone? then s.(pc := Forking)
    else s.(pc := Probing, life := Forked(c, s.life, a.watches))
  }

  predicate CanRun(s: Svc, a: RunAct) {
    match a
    case ProbeEnds(ready) => s.pc.Probing? && (ready || s.stopping || !Live(s.life))
    case ProbeTimeout => s.pc.Probing? && !s.stopping
    case SeeExit => s.pc.AwaitExit? && !Live(s.life)
    case Reaped => s.pc.Reaping? && s.life.gateW.Off? && s.life.pathW.Off?
  }

  function StepRun(s: Svc, a: RunAct): Svc
    requires CanRun(s, a)
  {
    match a
    case ProbeEnds(ready) =>
      if ready then s.(pc := AwaitExit, ready := true, log := s.log + [BecameReady]) else s.(pc := AwaitExit)
    case ProbeTimeout => Sweep(s.(pc := AwaitExit), ReadyTimeout, true, s.life.proc)
    case SeeExit => s.(pc := Reaping)
    case Reaped => Sweep(s.(pc := Draining), PostExit, true, s.life.proc)
  }

  predicate CanJudge(c: Config, s: Svc, a: JudgeAct) {
    match a
    case Drained => s.pc.Draining? && s.life.proc.Some? && !Live(s.life)
    case JudgeAnswer(failing) => s.pc.Judging? && Required(c, failing)
    case BackoffOver => s.pc.BackingOff? && (s.stopping || s.now - s.pc.began >= s.pc.delay)
  }

  function StepJudge(c: Config, s: Svc, a: JudgeAct): Svc
    requires CanJudge(c, s, a)
  {
    match a
    case Drained => Classify(c, s.(ready := false), s.life.proc, s.life.codes[s.life.proc.value])
    case JudgeAnswer(failing) =>
      var s' := s.(log := s.log + [GateRound(failing)]);
      if |failing| == 0 then Charge(c, s', s.pc.inc, s.pc.code)
      else s'.(pc := Top, log := s'.log + [Judged(s.pc.inc, s.pc.code, GateFailing, s.now)])
    case BackoffOver => s.(pc := Top)
  }

  predicate CanWatch(s: Svc, a: WatchAct) {
    match a
    case GateQuit => s.life.gateW.Polling? && (s.stopping || !Live(s.life))
    case GateCloses => s.life.gateW.Polling? && !s.stopping && Live(s.life)
    case GateKills => s.life.gateW.Terminating?
    case GateCancelled => s.pc.Reaping? && !s.life.gateW.Off?
    case PathQuit => s.life.pathW.Polling? && (s.stopping || !Live(s.life))
    case PathMoves => s.life.pathW.Polling? && !s.stopping && Live(s.life)
    case PathKills => s.life.pathW.Terminating?
    case PathCancelled => s.pc.Reaping? && !s.life.pathW.Off?
  }

  function StepWatch(s: Svc, a: WatchAct): Svc
    requires CanWatch(s, a)
  {
    match a
    case GateQuit | GateCancelled => s.(life := s.life.(gateW := Off))
    case GateCloses =>
      Sweep(s.(gateStop := true, life := s.life.(gateW := Terminating(s.life.proc.value))), GateWatch, false, s.life.proc)
    case GateKills => Sweep(s.(life := s.life.(gateW := Off)), GateWatch, true, Some(s.life.gateW.meant))
    case PathQuit | PathCancelled => s.(life := s.life.(pathW := Off))
    case PathMoves =>
      Sweep(s.(bounce := true, life := s.life.(pathW := Terminating(s.life.proc.value))), PathWatch, false, s.life.proc)
    case PathKills => Sweep(s.(life := s.life.(pathW := Off)), PathWatch, true, Some(s.life.pathW.meant))
  }

  predicate CanCall(s: Svc, a: CallAct) {
    match a
    case BounceCall => true
    case BounceWaitOver(i) => i < |s.life.bounces|
    case StopCall => s.stopper.NotAsked?
    case StopWaitOver => s.stopper.StopWaiting?
  }

  function StepCall(s: Svc, a: CallAct): Svc
    requires CanCall(s, a)
  {
    match a
    case BounceCall => Restart(s)
    case BounceWaitOver(i) => RestartEscalates(s, i)
    case StopCall =>
      var s' := s.(stopping := true, stopNext := s.life.next);
      if Live(s.life) then Sweep(s'.(stopper := StopWaiting), Stop, false, s.life.proc)
      else Sweep(s'.(stopper := StopDone), Stop, true, s.life.proc)
    case StopWaitOver => Sweep(s.(stopper := StopDone), Stop, true, s.life.proc)
  }

  predicate Enabled(c: Config, s: Svc, a: Action) {
    match a
    case Env(e) => CanEnv(s, e)
    case Dep(d) => CanDep(c, s, d)
    case Gate(g) => CanGate(c, s, g)
    case Spawn(p) => CanSpawn(s, p)
    case Run(r) => CanRun(s, r)
    case Judge(j) => CanJudge(c, s, j)
    case Watch(w) => CanWatch(s, w)
    case Call(k) => CanCall(s, k)
  }

  function Step(c: Config, s: Svc, a: Action): Svc
    requires Enabled(c, s, a)
  {
    match a
    case Env(e) => StepEnv(s, e)
    case Dep(d) => StepDep(c, s, d)
    case Gate(g) => StepGate(c, s, g)
    case Spawn(p) => StepSpawn(c, s, p)
    case Run(r) => StepRun(s, r)
    case Judge(j) => StepJudge(c, s, j)
    case Watch(w) => StepWatch(s, w)
    case Call(k) => StepCall(s, k)
  }

  /** The state after a whole run, if every action was possible where it occurs. */
  function After(c: Config, acts: seq<Action>): Option<Svc> {
    if |acts| == 0 then Some(Init(c))
    else
      match After(c, acts[..|acts| - 1])
      case None => None
      case Some(s) => if Enabled(c, s, acts[|acts| - 1]) then Some(Step(c, s, acts[|acts| - 1])) else None
  }

  /** A run grows by one possible action. */
  lemma Do(c: Config, acts: seq<Action>, s: Svc, a: Action) returns (acts': seq<Action>, s': Svc)
    requires After(c, acts) == Some(s) && Enabled(c, s, a)
    ensures After(c, acts') == Some(s') && s' == Step(c, s, a) && acts' == acts + [a]
  {
    acts', s' := acts + [a], Step(c, s, a);
    assert acts'[..|acts|] == acts;
  }
}
