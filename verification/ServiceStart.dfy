/** What must precede a spawn, and what `stop` leaves behind. */
module ServiceStart {
  import opened Wrappers
  import opened ServiceModel
  import opened ServiceKills

  /** The i-th event, if it is a spawn attempt, directly follows a round in which every gate passed. */
  predicate Gated(c: Config, log: seq<Event>, i: nat)
    requires i < |log|
  {
    log[i].Attempt? && |c.gates| > 0 ==> i > 0 && log[i - 1] == GateRound([])
  }

  ghost predicate AllGated(c: Config, log: seq<Event>) {
    forall i: nat | i < |log| :: Gated(c, log, i)
  }

  ghost predicate Killed(signals: seq<Signal>, k: Inc) {
    exists i | 0 <= i < |signals| :: signals[i].kill && signals[i].hit == Some(k)
  }

  /** After `stop` was called at most one more process starts; once `stop` has returned, a live process has been
      hit by SIGKILL or is that one. */
  ghost predicate StopInv(s: Svc) {
    && (s.stopping <==> !s.stopper.NotAsked?)
    && (s.stopping ==> s.stopNext <= s.life.next <= s.stopNext + 1)
    && (s.stopping && (s.pc.Gating? || s.pc.Rendering? || s.pc.Forking?) ==> s.life.next == s.stopNext)
    && (s.stopper.StopDone? && Live(s.life) ==>
          Killed(s.signals, s.life.proc.value) || s.life.proc == Some(s.stopNext))
  }

  lemma KilledGrows(signals: seq<Signal>, g: Signal, k: Inc)
    ensures Killed(signals + [g], k) <==> Killed(signals, k) || (g.kill && g.hit == Some(k))
  {
    assert (signals + [g])[|signals|] == g;
    if Killed(signals, k) {
      var i :| 0 <= i < |signals| && signals[i].kill && signals[i].hit == Some(k);
      assert (signals + [g])[i] == signals[i];
    }
  }

  /** The steps that send a signal or start a process. */
  lemma StopSpawn(c: Config, s: Svc, a: SpawnAct)
    requires ProcInv(s.pc, s.life) && StopInv(s) && CanSpawn(s, a)
    ensures StopInv(StepSpawn(c, s, a))
  {
  }

  lemma StopRun(s: Svc, a: RunAct)
    requires ProcInv(s.pc, s.life) && StopInv(s) && CanRun(s, a)
    ensures StopInv(StepRun(s, a))
  {
    var s' := StepRun(s, a);
    if s'.signals != s.signals && Live(s.life) {
      KilledGrows(s.signals, s'.signals[|s.signals|], s.life.proc.value);
    }
  }

  lemma StopWatch(s: Svc, a: WatchAct)
    requires ProcInv(s.pc, s.life) && StopInv(s) && CanWatch(s, a)
    ensures StopInv(StepWatch(s, a))
  {
    var s' := StepWatch(s, a);
    if s'.signals != s.signals && Live(s.life) {
      KilledGrows(s.signals, s'.signals[|s.signals|], s.life.proc.value);
    }
  }

  lemma StopCalls(s: Svc, a: CallAct)
    requires ProcInv(s.pc, s.life) && StopInv(s) && CanCall(s, a)
    ensures StopInv(StepCall(s, a))
  {
    var s' := StepCall(s, a);
    if s'.signals != s.signals && Live(s.life) {
      KilledGrows(s.signals, s'.signals[|s.signals|], s.life.proc.value);
    }
  }

  lemma StopGate(c: Config, s: Svc, a: GateAct)
    requires StopInv(s) && CanGate(c, s, a)
    ensures StopInv(StepGate(c, s, a))
  {
  }

  lemma StopJudge(c: Config, s: Svc, a: JudgeAct)
    requires StopInv(s) && CanJudge(c, s, a)
    ensures StopInv(StepJudge(c, s, a))
  {
    if a.Drained? { ClassifyStays(c, s.(ready := false), s.life.proc, s.life.codes[s.life.proc.value]); }
  }

  lemma StopStep(c: Config, s: Svc, a: Action)
    requires ProcInv(s.pc, s.life) && StopInv(s) && Enabled(c, s, a)
    ensures StopInv(Step(c, s, a))
  {
    match a
    case Env(_) =>
    case Dep(_) =>
    case Gate(g) => StopGate(c, s, g);
    case Spawn(p) => StopSpawn(c, s, p);
    case Run(r) => StopRun(s, r);
    case Judge(j) => StopJudge(c, s, j);
    case Watch(w) => StopWatch(s, w);
    case Call(k) => StopCalls(s, k);
  }

  /** Over every run. */
  lemma {:induction false} StopLeavesAtMostOne(c: Config, acts: seq<Action>)
    requires After(c, acts).Some?
    ensures StopInv(After(c, acts).value)
  {
    if |acts| == 0 {
    } else {
      var before := After(c, acts[..|acts| - 1]).value;
      StopLeavesAtMostOne(c, acts[..|acts| - 1]);
      NoStrayKill(c, acts[..|acts| - 1]);
      StopStep(c, before, acts[|acts| - 1]);
    }
  }

  lemma GatedGrows(c: Config, log: seq<Event>, e: Event)
    requires AllGated(c, log)
    requires e.Attempt? && |c.gates| > 0 ==> |log| > 0 && log[|log| - 1] == GateRound([])
    ensures AllGated(c, log + [e])
  {
    forall i: nat | i < |log + [e]| ensures Gated(c, log + [e], i) {
      if i < |log| { assert Gated(c, log, i); }
    }
  }

  lemma ClassifyGated(c: Config, s: Svc, inc: Option<Inc>, code: int)
    requires AllGated(c, s.log)
    ensures AllGated(c, Classify(c, s, inc, code).log)
  {
    var s' := Classify(c, s, inc, code);
    if s'.log != s.log { GatedGrows(c, s.log, s'.log[|s.log|]); }
  }

  lemma GateGated(c: Config, s: Svc, a: GateAct)
    requires AllGated(c, s.log) && Enabled(c, s, Gate(a))
    ensures AllGated(c, Step(c, s, Gate(a)).log)
  {
    match a
    case LoopTop => if |c.gates| == 0 { GatedGrows(c, s.log, Attempt); }
    case GateAnswer(failing) =>
      GatedGrows(c, s.log, GateRound(failing));
      if |failing| == 0 { GatedGrows(c, s.log + [GateRound(failing)], Attempt); }
      else { GatedGrows(c, s.log + [GateRound(failing)], EnteredBlocked); }
    case ParkWake =>
    case ParkAnswer(failing) => GatedGrows(c, s.log, GateRound(failing));
  }

  lemma JudgeGated(c: Config, s: Svc, a: JudgeAct)
    requires AllGated(c, s.log) && Enabled(c, s, Judge(a))
    ensures AllGated(c, Step(c, s, Judge(a)).log)
  {
    match a
    case Drained =>
      ClassifyGated(c, s.(ready := false), s.life.proc, s.life.codes[s.life.proc.value]);
    case JudgeAnswer(failing) =>
      GatedGrows(c, s.log, GateRound(failing));
      GatedGrows(c, s.log + [GateRound(failing)],
                 Judged(s.pc.inc, s.pc.code, if |failing| == 0 then Charged else GateFailing, s.now));
    case BackoffOver =>
  }

  lemma GatedStep(c: Config, s: Svc, a: Action)
    requires AllGated(c, s.log) && Enabled(c, s, a)
    ensures AllGated(c, Step(c, s, a).log)
  {
    match a
    case Gate(g) => GateGated(c, s, g);
    case Spawn(p) => ClassifyGated(c, s, None, 127);
    case Run(_) => GatedGrows(c, s.log, BecameReady);
    case Judge(j) => JudgeGated(c, s, j);
    case _ =>
  }

  /** Over every run: each spawn attempt directly follows a pass in which every required gate answered
      satisfied. */
  lemma {:induction false} SpawnsAreGated(c: Config, acts: seq<Action>)
    requires After(c, acts).Some?
    ensures AllGated(c, After(c, acts).value.log)
  {
    if |acts| == 0 {
    } else {
      SpawnsAreGated(c, acts[..|acts| - 1]);
      GatedStep(c, After(c, acts[..|acts| - 1]).value, acts[|acts| - 1]);
    }
  }

  /** `stop` alone can leave a process running: called while a spawn is under way it finds nothing to signal,
      returns, and the process then starts. */
  lemma StopMissesASpawn(c: Config) returns (acts: seq<Action>)
    requires |c.gates| == 0 && |c.after| == 0
    ensures After(c, acts).Some?
    ensures var s := After(c, acts).value;
            s.stopper.StopDone? && Live(s.life) && !Killed(s.signals, s.life.proc.value)
  {
    var s := Init(c);
    acts := [];
    acts, s := Do(c, acts, s, Gate(LoopTop));
    acts, s := Do(c, acts, s, Spawn(RenderDone(true)));
    acts, s := Do(c, acts, s, Call(StopCall));
    acts, s := Do(c, acts, s, Spawn(ForkDone(true, false)));
  }
}
