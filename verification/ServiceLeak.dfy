/** The one way a crash is excused undeservedly: a bounce flag that outlives a gate stop. */
module ServiceLeak {
  import opened Wrappers
  import opened ServiceModel
  import opened ServiceKills
  import opened ServiceFairness

  predicate GateVerdict(e: Event) {
    e.Judged? && e.verdict.GateStopped?
  }

  ghost predicate NoGateWatch(s: Svc) {
    && s.life.gateW.Off? && !s.gateStop && !Leaked(s.log)
    && (forall i | 0 <= i < |s.log| :: !GateVerdict(s.log[i]))
  }

  lemma NoteQuiet(s: Svc, e: Event, s': Svc)
    requires NoGateWatch(s) && !GateVerdict(e) && s'.log == s.log + [e]
    requires s'.life.gateW == s.life.gateW && s'.gateStop == s.gateStop
    ensures NoGateWatch(s')
  {
    LeakedGrows(s.log, e);
  }

  lemma ClassifyQuiet(c: Config, s: Svc, inc: Option<Inc>, code: int)
    requires NoGateWatch(s)
    ensures NoGateWatch(Classify(c, s, inc, code))
  {
    var s' := Classify(c, s, inc, code);
    if s'.log != s.log { NoteQuiet(s, s'.log[|s.log|], s'); }
  }

  lemma GateQuiet(c: Config, s: Svc, a: GateAct)
    requires NoGateWatch(s) && CanGate(c, s, a)
    ensures NoGateWatch(StepGate(c, s, a))
  {
    var s' := StepGate(c, s, a);
    match a
    case LoopTop => if s'.log != s.log { NoteQuiet(s, Attempt, s'); }
    case GateAnswer(failing) =>
      var mid := s.(log := s.log + [GateRound(failing)]);
      NoteQuiet(s, GateRound(failing), mid);
      NoteQuiet(mid, if |failing| == 0 then Attempt else EnteredBlocked, s');
    case ParkWake =>
    case ParkAnswer(failing) => NoteQuiet(s, GateRound(failing), s');
  }

  lemma JudgeQuiet(c: Config, s: Svc, a: JudgeAct)
    requires NoGateWatch(s) && CanJudge(c, s, a)
    ensures NoGateWatch(StepJudge(c, s, a))
  {
    var s' := StepJudge(c, s, a);
    match a
    case Drained => ClassifyQuiet(c, s.(ready := false), s.life.proc, s.life.codes[s.life.proc.value]);
    case JudgeAnswer(failing) =>
      var mid := s.(log := s.log + [GateRound(failing)]);
      NoteQuiet(s, GateRound(failing), mid);
      NoteQuiet(mid, Judged(s.pc.inc, s.pc.code, if |failing| == 0 then Charged else GateFailing, s.now), s');
    case BackoffOver =>
  }

  lemma WatchQuiet(s: Svc, a: WatchAct)
    requires NoGateWatch(s) && CanWatch(s, a)
    ensures NoGateWatch(StepWatch(s, a))
  {
  }

  lemma CallQuiet(s: Svc, a: CallAct)
    requires NoGateWatch(s) && CanCall(s, a)
    ensures NoGateWatch(StepCall(s, a))
  {
  }

  lemma SpawnQuiet(c: Config, s: Svc, a: SpawnAct)
    requires !c.continuous && NoGateWatch(s) && CanSpawn(s, a)
    ensures NoGateWatch(StepSpawn(c, s, a))
  {
    if !a.ok { ClassifyQuiet(c, s, None, 127); }
  }

  lemma RunQuiet(s: Svc, a: RunAct)
    requires NoGateWatch(s) && CanRun(s, a)
    ensures NoGateWatch(StepRun(s, a))
  {
    if a == ProbeEnds(true) { NoteQuiet(s, BecameReady, StepRun(s, a)); }
  }

  lemma QuietStep(c: Config, s: Svc, a: Action)
    requires !c.continuous && NoGateWatch(s) && Enabled(c, s, a)
    ensures NoGateWatch(Step(c, s, a))
  {
    match a
    case Gate(g) => GateQuiet(c, s, g);
    case Spawn(p) => SpawnQuiet(c, s, p);
    case Run(r) => RunQuiet(s, r);
    case Judge(j) => JudgeQuiet(c, s, j);
    case Watch(w) => WatchQuiet(s, w);
    case Call(k) => CallQuiet(s, k);
    case Env(_) =>
    case Dep(_) =>
  }

  /** Without continuous gates the flag never outlives the exit it excuses, so every excuse is deserved. */
  lemma {:induction false} NoLeakWithoutContinuousGates(c: Config, acts: seq<Action>)
    requires !c.continuous && After(c, acts).Some?
    ensures NoGateWatch(After(c, acts).value)
  {
    if |acts| == 0 {
    } else {
      NoLeakWithoutContinuousGates(c, acts[..|acts| - 1]);
      QuietStep(c, After(c, acts[..|acts| - 1]).value, acts[|acts| - 1]);
    }
  }

  /** The guard of the branch at fault: an exit sends the loop back to its top with the bounce flag still up
      exactly when both flags are set and the service is not stopping. */
  lemma LeaksExactlyWhenBothFlagsAreSet(c: Config, s: Svc, inc: Option<Inc>, code: int)
    ensures var s' := Classify(c, s, inc, code); s'.pc.Top? && s'.bounce <==> !s.stopping && s.gateStop && s.bounce
  {
  }

  /** A leaked flag stays up until an exit is excused by it. */
  predicate LeakHolds(s: Svc) {
    Leaked(s.log) && !s.pc.Ended? ==> s.bounce
  }

  lemma NoteHolds(s: Svc, e: Event, s': Svc)
    requires LeakHolds(s) && !s.pc.Ended? && !e.Judged? && s'.log == s.log + [e] && s'.bounce == s.bounce
    ensures LeakHolds(s')
  {
    LeakedGrows(s.log, e);
  }

  lemma ClassifyHolds(c: Config, s: Svc, inc: Option<Inc>, code: int)
    requires LeakHolds(s) && !s.pc.Ended?
    ensures LeakHolds(Classify(c, s, inc, code))
  {
    var s' := Classify(c, s, inc, code);
    if s'.log != s.log { LeakedGrows(s.log, s'.log[|s.log|]); }
  }

  lemma GateHolds(c: Config, s: Svc, a: GateAct)
    requires LeakHolds(s) && CanGate(c, s, a)
    ensures LeakHolds(StepGate(c, s, a))
  {
    var s' := StepGate(c, s, a);
    match a
    case LoopTop => if s'.log != s.log { NoteHolds(s, Attempt, s'); }
    case GateAnswer(failing) =>
      var mid := s.(log := s.log + [GateRound(failing)]);
      NoteHolds(s, GateRound(failing), mid);
      NoteHolds(mid, if |failing| == 0 then Attempt else EnteredBlocked, s');
    case ParkWake =>
    case ParkAnswer(failing) => NoteHolds(s, GateRound(failing), s');
  }

  lemma JudgeHolds(c: Config, s: Svc, a: JudgeAct)
    requires LeakHolds(s) && CanJudge(c, s, a)
    ensures LeakHolds(StepJudge(c, s, a))
  {
    match a
    case Drained => ClassifyHolds(c, s.(ready := false), s.life.proc, s.life.codes[s.life.proc.value]);
    case JudgeAnswer(failing) =>
      LeakedGrows(s.log + [GateRound(failing)],
                  Judged(s.pc.inc, s.pc.code, if |failing| == 0 then Charged else GateFailing, s.now));
    case BackoffOver =>
  }

  lemma WatchHolds(s: Svc, a: WatchAct)
    requires LeakHolds(s) && CanWatch(s, a)
    ensures LeakHolds(StepWatch(s, a))
  {
  }

  lemma CallHolds(s: Svc, a: CallAct)
    requires LeakHolds(s) && CanCall(s, a)
    ensures LeakHolds(StepCall(s, a))
  {
  }

  lemma HoldsStep(c: Config, s: Svc, a: Action)
    requires LeakHolds(s) && Enabled(c, s, a)
    ensures LeakHolds(Step(c, s, a))
  {
    match a
    case Gate(g) => GateHolds(c, s, g);
    case Spawn(p) => if !p.ok { ClassifyHolds(c, s, None, 127); }
    case Run(r) => if r == ProbeEnds(true) { NoteHolds(s, BecameReady, StepRun(s, r)); }
    case Judge(j) => JudgeHolds(c, s, j);
    case Watch(w) => WatchHolds(s, w);
    case Call(k) => CallHolds(s, k);
    case Env(_) =>
    case Dep(_) =>
  }

  lemma {:induction false} LeakHoldsAlways(c: Config, acts: seq<Action>)
    requires After(c, acts).Some?
    ensures LeakHolds(After(c, acts).value)
  {
    if |acts| == 0 {
    } else {
      LeakHoldsAlways(c, acts[..|acts| - 1]);
      HoldsStep(c, After(c, acts[..|acts| - 1]).value, acts[|acts| - 1]);
    }
  }

  /** Over every run: between incarnations the bounce flag is up exactly if the latest exit was put down to a gate
      while it was up. */
  lemma FlagIsUpExactlyIfLeaked(c: Config, acts: seq<Action>)
    requires After(c, acts).Some?
    ensures var s := After(c, acts).value;
            !InIncarnation(s.pc) && !s.pc.Ended? ==> (s.bounce <==> Leaked(s.log))
  {
    LeakHoldsAlways(c, acts);
    VerdictsAreDeserved(c, acts);
  }

  /** From the loop top to a started process. */
  lemma Launch(c: Config, acts: seq<Action>, s: Svc, watches: bool) returns (acts': seq<Action>, s': Svc)
    requires After(c, acts) == Some(s) && s.pc.Top? && !s.stopping && |c.gates| > 0
    ensures After(c, acts') == Some(s')
    ensures s' == s.(pc := Probing, log := s.log + [GateRound([])] + [Attempt], life := Forked(c, s.life, watches))
  {
    acts', s' := Do(c, acts, s, Gate(LoopTop));
    acts', s' := Do(c, acts', s', Gate(GateAnswer([])));
    acts', s' := Do(c, acts', s', Spawn(RenderDone(true)));
    acts', s' := Do(c, acts', s', Spawn(ForkDone(true, watches)));
  }

  /** From a dead process whose watchers are gone to the classification of its exit. */
  lemma Bury(c: Config, acts: seq<Action>, s: Svc) returns (acts': seq<Action>, s': Svc)
    requires After(c, acts) == Some(s) && s.pc.Probing? && s.life.proc.Some? && !Live(s.life)
    requires s.life.gateW.Off? && s.life.pathW.Off?
    ensures After(c, acts') == Some(s')
    ensures s' == Classify(c, Sweep(s.(pc := Draining, ready := false), PostExit, true, s.life.proc),
                           s.life.proc, s.life.codes[s.life.proc.value])
  {
    acts', s' := Do(c, acts, s, Run(ProbeEnds(false)));
    acts', s' := Do(c, acts', s', Run(SeeExit));
    acts', s' := Do(c, acts', s', Run(Reaped));
    acts', s' := Do(c, acts', s', Judge(Drained));
  }

  /** A concrete run, first half: a path change and a closing gate stop incarnation 0 together. */
  lemma BothFlags(c: Config) returns (acts: seq<Action>, s: Svc)
    requires |c.gates| > 0 && c.continuous && |c.after| == 0
    ensures After(c, acts) == Some(s)
    ensures s.pc.Top? && s.bounce && !s.gateStop && !s.stopping && s.life.next == 1 && s.now == 0.0
    ensures s.life.codes == map[0 := 0]
    ensures forall i | 0 <= i < |s.signals| :: s.signals[i].hit == Some(0)
  {
    acts, s := [], Init(c);
    acts, s := Launch(c, acts, s, true);
    acts, s := Do(c, acts, s, Watch(PathMoves));
    acts, s := Do(c, acts, s, Watch(GateCloses));
    acts, s := Do(c, acts, s, Env(Exited(0)));
    acts, s := Do(c, acts, s, Watch(GateKills));
    acts, s := Do(c, acts, s, Watch(PathKills));
    acts, s := Bury(c, acts, s);
  }

  /** Second half: incarnation 1 crashes with every gate passing and nobody asking it to stop, and the
      surviving flag excuses it. */
  lemma LeakedFlagExcusesACrash(c: Config) returns (acts: seq<Action>)
    requires |c.gates| > 0 && c.continuous && |c.after| == 0
    ensures After(c, acts).Some?
    ensures var s := After(c, acts).value;
            && |s.log| > 0 && s.log[|s.log| - 1] == Judged(Some(1), 1, Bounced, 0.0)
            && !Told(s.signals, 1)
  {
    var s;
    acts, s := BothFlags(c);
    acts, s := Launch(c, acts, s, false);
    acts, s := Do(c, acts, s, Env(Exited(1)));
    acts, s := Do(c, acts, s, Watch(GateQuit));
    acts, s := Bury(c, acts, s);
  }
}
