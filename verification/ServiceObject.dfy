/** The `Service` object itself: one method per atomic segment of its coroutines, each updating the fields in
    place, against the step system that the whole-run results are proved about. */
module ServiceObject {
  import opened Wrappers
  import opened ServiceModel
  import opened ServiceKills
  import opened ServiceBudget
  import opened ServiceFairness
  import opened ServiceVerdicts
  import opened ServiceSignals

  class Service {
    const cfg: Config
    var at: Pc
    var stopping: bool
    var bounceRequested: bool
    var gateStop: bool
    var failTimes: seq<real>
    var restarts: nat
    var ready: bool
    var proc: Option<Inc>
    var registered: Option<Inc>
    var returncodes: map<Inc, int>
    var spawned: nat
    var gateWatcher: Watcher
    var pathWatcher: Watcher
    var restartCalls: seq<Inc>
    var stopper: Stopper
    var clock: real
    ghost var signals: seq<Signal>
    ghost var log: seq<Event>
    ghost var stopNext: Inc

    ghost function Processes(): Life
      reads this
    {
      Life.Life(proc, registered, returncodes, spawned, gateWatcher, pathWatcher, restartCalls)
    }

    ghost function State(): Svc
      reads this
    {
      Svc.Svc(at, stopping, bounceRequested, gateStop, failTimes, restarts, ready, Processes(),
              stopper, clock, signals, log, stopNext)
    }

    constructor (c: Config)
      ensures cfg == c && State() == Init(c)
    {
      cfg := c;
      at := if |c.after| == 0 then Top else Depending(0, false);
      stopping, bounceRequested, gateStop, failTimes, restarts, ready := false, false, false, [], 0, false;
      proc, registered, returncodes, spawned := None, None, map[], 0;
      gateWatcher, pathWatcher, restartCalls, stopper, clock := Off, Off, [], NotAsked, 0.0;
      signals, log, stopNext := [], [], 0;
    }

    predicate Running()
      reads this
      ensures Running() == Live(Processes())
    {
      proc.Some? && proc.value !in returncodes
    }

    method Sweep(sender: Sender, kill: bool, meant: Option<Inc>)
      modifies this`signals
      ensures State() == ServiceModel.Sweep(old(State()), sender, kill, meant)
    {
      signals := signals + [Signal(sender, kill, meant, registered)];
    }

    method Prune(now: real) returns (times: seq<real>)
      ensures times == Young(failTimes, now, cfg.window)
    {
      times := [];
      var i := |failTimes|;
      while i > 0
        invariant 0 <= i <= |failTimes|
        invariant times == Young(failTimes[i..], now, cfg.window)
      {
        i := i - 1;
        assert failTimes[i..][1..] == failTimes[i + 1..];
        if now - failTimes[i] < cfg.window { times := [failTimes[i]] + times; }
        else { assert [] + times == times; }
      }
      assert failTimes[0..] == failTimes;
    }

    /** The budget branch of `run`: forget what left the window, charge this exit, fail or back off. */
    method ChargeExit(inc: Option<Inc>, code: int)
      modifies this
      ensures State() == Charge(cfg, old(State()), inc, code)
    {
      var now := clock;
      var kept := Prune(now);
      failTimes := kept + [now];
      restarts := restarts + 1;
      log := log + [Judged(inc, code, Charged, now)];
      if |failTimes| > cfg.maxRestarts {
        at := Ended(OverBudget);
      } else if |failTimes| > MOST_DOUBLINGS {
        at := Ended(Overflowed);
      } else {
        at := BackingOff(Backoff(cfg, |failTimes|), now);
      }
    }

    /** `run` after `_run_once` returned, up to its next await. */
    method ClassifyExit(inc: Option<Inc>, code: int)
      modifies this
      ensures State() == Classify(cfg, old(State()), inc, code)
    {
      if stopping {
        at := Ended(Stopped);
      } else if gateStop {
        log := log + [Judged(inc, code, GateStopped(bounceRequested), clock)];
        gateStop := false;
        at := Top;
      } else if bounceRequested {
        log := log + [Judged(inc, code, Bounced, clock)];
        bounceRequested := false;
        at := Top;
      } else if code in cfg.noRetry {
        log := log + [Judged(inc, code, NoRetry, clock)];
        at := Ended(NotWorthRetrying);
      } else if |cfg.gates| > 0 {
        at := Judging(inc, code);
      } else {
        ChargeExit(inc, code);
      }
    }

    method DependencyStep(a: DepAct)
      requires CanDep(cfg, State(), a)
      modifies this
      ensures State() == StepDep(cfg, old(State()), a)
    {
      match a
      case DepWake => at := Depending(at.k, true);
      case DepGo(nextSet) =>
        if at.k + 1 == |cfg.after| { at := Top; } else { at := Depending(at.k + 1, nextSet); }
      case DepQuit => at := Ended(Stopped);
    }

    /** The head of the run loop and the waits of `_block`. */
    method GateStep(a: GateAct)
      requires CanGate(cfg, State(), a)
      modifies this
      ensures State() == StepGate(cfg, old(State()), a)
    {
      match a
      case LoopTop =>
        if stopping { at := Ended(Stopped); }
        else if |cfg.gates| > 0 { at := Gating; }
        else { at := Rendering; log := log + [Attempt]; }
      case GateAnswer(failing) =>
        log := log + [GateRound(failing)];
        if |failing| == 0 {
          at := Rendering;
          log := log + [Attempt];
        } else {
          failTimes := [];
          at := Parked;
          log := log + [EnteredBlocked];
        }
      case ParkWake =>
        if stopping { at := Top; } else { at := Unparking; }
      case ParkAnswer(failing) =>
        log := log + [GateRound(failing)];
        if |failing| == 0 { at := Top; } else { at := Parked; }
    }

    /** The end of `_spawn`, and the watchers `_run_once` creates beside the new process. */
    method ProcessStarted(watches: bool)
      modifies this`proc, this`registered, this`spawned, this`gateWatcher, this`pathWatcher
      ensures Processes() == Forked(cfg, old(Processes()), watches)
    {
      proc := Some(spawned);
      registered := proc;
      spawned := spawned + 1;
      gateWatcher := if cfg.continuous then Polling else Off;
      pathWatcher := if watches then Polling else Off;
    }

    method SpawnStep(a: SpawnAct)
      requires CanSpawn(State(), a)
      modifies this
      ensures State() == StepSpawn(cfg, old(State()), a)
    {
      if !a.ok {
        ClassifyExit(None, 127);
      } else if a.RenderDone? {
        at := Forking;
      } else {
        ProcessStarted(a.watches);
        at := Probing;
      }
    }

    /** `_wait_ready`, `_wait_exit` and the sweep after the exit. */
    method RunStep(a: RunAct)
      requires CanRun(State(), a)
      modifies this
      ensures State() == StepRun(old(State()), a)
    {
      match a
      case ProbeEnds(ok) =>
        if ok {
          ready := true;
          log := log + [BecameReady];
        }
        at := AwaitExit;
      case ProbeTimeout =>
        at := AwaitExit;
        Sweep(ReadyTimeout, true, proc);
      case SeeExit => at := Reaping;
      case Reaped =>
        at := Draining;
        Sweep(PostExit, true, proc);
    }

    method JudgeStep(a: JudgeAct)
      requires CanJudge(cfg, State(), a)
      modifies this
      ensures State() == StepJudge(cfg, old(State()), a)
    {
      match a
      case Drained =>
        ready := false;
        ClassifyExit(proc, returncodes[proc.value]);
      case JudgeAnswer(failing) =>
        log := log + [GateRound(failing)];
        if |failing| == 0 {
          ChargeExit(at.inc, at.code);
        } else {
          log := log + [Judged(at.inc, at.code, GateFailing, clock)];
          at := Top;
        }
      case BackoffOver => at := Top;
    }

    /** `_watch_continuous_gates` and `_watch_paths`. */
    method WatchStep(a: WatchAct)
      requires CanWatch(State(), a)
      modifies this
      ensures State() == StepWatch(old(State()), a)
    {
      match a
      case GateQuit | GateCancelled => gateWatcher := Off;
      case GateCloses =>
        gateStop := true;
        gateWatcher := Terminating(proc.value);
        Sweep(GateWatch, false, proc);
      case GateKills =>
        var meant := gateWatcher.meant;
        gateWatcher := Off;
        Sweep(GateWatch, true, Some(meant));
      case PathQuit | PathCancelled => pathWatcher := Off;
      case PathMoves =>
        bounceRequested := true;
        pathWatcher := Terminating(proc.value);
        Sweep(PathWatch, false, proc);
      case PathKills =>
        var meant := pathWatcher.meant;
        pathWatcher := Off;
        Sweep(PathWatch, true, Some(meant));
    }

    /** `restart`, up to its wait in `_terminate_group`. */
    method RestartCalled()
      modifies this
      ensures State() == Restart(old(State()))
    {
      if stopping || bounceRequested { return; }
      if !Running() { return; }
      bounceRequested := true;
      restartCalls := restartCalls + [proc.value];
      Sweep(Bounce, false, proc);
    }

    /** `restart`, after that wait: escalate only if the captured process is still alive. */
    method RestartReturns(i: nat)
      requires i < |restartCalls|
      modifies this
      ensures State() == RestartEscalates(old(State()), i)
    {
      var captured := restartCalls[i];
      restartCalls := restartCalls[..i] + restartCalls[i + 1..];
      if captured !in returncodes { Sweep(Bounce, true, Some(captured)); }
    }

    method StopCalled()
      requires stopper.NotAsked?
      modifies this
      ensures State() == StepCall(old(State()), StopCall)
    {
      stopping := true;
      stopNext := spawned;
      if Running() {
        stopper := StopWaiting;
        Sweep(Stop, false, proc);
      } else {
        stopper := StopDone;
        Sweep(Stop, true, proc);
      }
    }

    method StopReturns()
      requires stopper.StopWaiting?
      modifies this
      ensures State() == StepCall(old(State()), StopWaitOver)
    {
      stopper := StopDone;
      Sweep(Stop, true, proc);
    }

    method Environment(a: EnvAct)
      requires CanEnv(State(), a)
      modifies this
      ensures State() == StepEnv(old(State()), a)
    {
      match a
      case Tick(d) => clock := clock + d;
      case Exited(code) => returncodes := returncodes[proc.value := code];
    }

    /** One atomic segment, whoever's turn it is. */
    method Take(a: Action)
      requires Enabled(cfg, State(), a)
      modifies this
      ensures State() == Step(cfg, old(State()), a)
    {
      match a
      case Env(e) => Environment(e);
      case Dep(d) => DependencyStep(d);
      case Gate(g) => GateStep(g);
      case Spawn(p) => SpawnStep(p);
      case Run(r) => RunStep(r);
      case Judge(j) => JudgeStep(j);
      case Watch(w) => WatchStep(w);
      case Call(BounceCall) => RestartCalled();
      case Call(BounceWaitOver(i)) => RestartReturns(i);
      case Call(StopCall) => StopCalled();
      case Call(StopWaitOver) => StopReturns();
    }
  }

  /** A fresh object driven through any possible run is where the step system is, so everything proved over
      its runs holds of the object. */
  method Drive(c: Config, script: seq<Action>) returns (svc: Service)
    requires ValidConfig(c) && After(c, script).Some?
    ensures fresh(svc) && svc.State() == After(c, script).value
    ensures NoStray(svc.signals) && BudgetInv(c, svc.State()) && FairInv(svc.State())
    ensures RecordInv(c, svc.State()) && SignalInv(svc.State())
  {
    svc := new Service(c);
    var i := 0;
    assert script[..|script|] == script;
    while i < |script|
      invariant 0 <= i <= |script| && svc.cfg == c && fresh(svc)
      invariant After(c, script[..i]) == Some(svc.State())
    {
      PrefixRuns(c, script, i + 1);
      assert script[..i + 1][..i] == script[..i];
      svc.Take(script[i]);
      i := i + 1;
    }
    NoStrayKill(c, script);
    BudgetIsExact(c, script);
    VerdictsAreDeserved(c, script);
    RecordIsExact(c, script);
    SignalsEscalate(c, script);
  }

  /** Every prefix of a possible run is possible. */
  lemma {:induction false} PrefixRuns(c: Config, acts: seq<Action>, n: nat)
    requires After(c, acts).Some? && n <= |acts|
    ensures After(c, acts[..n]).Some?
  {
    if n == |acts| {
      assert acts[..n] == acts;
    } else {
      PrefixRuns(c, acts[..|acts| - 1], n);
      assert acts[..|acts| - 1][..n] == acts[..n];
    }
  }
}
