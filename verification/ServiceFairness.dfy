/** Who pays for an exit, over whole runs: the flags `_bounce_requested` and `_gate_stop` against the
    signals that were actually sent. */
module ServiceFairness {
  import opened Wrappers
  import opened ServiceModel
  import opened ServiceKills

  predicate Relaunches(sender: Sender) {
    sender.Bounce? || sender.PathWatch?
  }

  /** `restart` or the path watcher signalled this incarnation. */
  ghost predicate Relaunched(signals: seq<Signal>, k: Inc) {
    exists i | 0 <= i < |signals| :: signals[i].hit == Some(k) && Relaunches(signals[i].sender)
  }

  /** The continuous-gate watcher signalled this incarnation. */
  ghost predicate GateClosed(signals: seq<Signal>, k: Inc) {
    exists i | 0 <= i < |signals| :: signals[i].hit == Some(k) && signals[i].sender.GateWatch?
  }

  ghost predicate Told(signals: seq<Signal>, k: Inc) {
    Relaunched(signals, k) || GateClosed(signals, k)
  }

  /** The latest exit was put down to a gate while the bounce flag was set too: the flag survives. */
  predicate Leaked(log: seq<Event>) {
    if |log| == 0 then false
    else
      var e := log[|log| - 1];
      if e.Judged? then e.verdict.GateStopped? && e.verdict.flagLeft else Leaked(log[..|log| - 1])
  }

  /** What each verdict says about the signals sent to the incarnation it judged. */
  ghost predicate Deserved(signals: seq<Signal>, before: seq<Event>, e: Event) {
    e.Judged? ==>
      match e.verdict
      case Charged | NoRetry | GateFailing => e.inc.Some? ==> !Told(signals, e.inc.value)
      case Bounced => (e.inc.Some? && Relaunched(signals, e.inc.value)) || Leaked(before)
      case GateStopped(left) =>
        && e.inc.Some? && GateClosed(signals, e.inc.value)
        && (left ==> Relaunched(signals, e.inc.value) || Leaked(before))
  }

  ghost predicate AllDeserved(signals: seq<Signal>, log: seq<Event>) {
    forall i | 0 <= i < |log| :: Deserved(signals, log[..i], log[i])
  }

  /** A judged incarnation is over: it is not the one any task may still signal. */
  predicate Over(pc: Pc, l: Life, inc: Option<Inc>) {
    inc.Some? ==> inc.value < l.next && (InIncarnation(pc) ==> inc != l.proc)
  }

  ghost predicate AllOver(pc: Pc, l: Life, log: seq<Event>) {
    forall i | 0 <= i < |log| && log[i].Judged? :: Over(pc, l, log[i].inc)
  }

  ghost predicate FlagsInv(s: Svc) {
    && (InIncarnation(s.pc) && s.life.proc.Some? ==>
          && (GateClosed(s.signals, s.life.proc.value) ==> s.gateStop)
          && (Relaunched(s.signals, s.life.proc.value) ==> s.bounce))
    && (s.gateStop && !s.pc.Ended? ==>
          InIncarnation(s.pc) && s.life.proc.Some? && GateClosed(s.signals, s.life.proc.value))
    && (s.bounce && !s.pc.Ended? ==>
          || (InIncarnation(s.pc) && s.life.proc.Some? && Relaunched(s.signals, s.life.proc.value))
          || Leaked(s.log))
    && (s.pc.Judging? ==>
          && !s.bounce && !s.gateStop && Over(s.pc, s.life, s.pc.inc)
          && (s.pc.inc.Some? ==> !Told(s.signals, s.pc.inc.value)))
  }

  /** While a stop is under way, the flag that will excuse the exit is up. */
  ghost predicate Excused(s: Svc) {
    && (s.life.gateW.Terminating? ==> s.gateStop)
    && (s.life.pathW.Terminating? ==> s.bounce)
    && (forall i | 0 <= i < |s.life.bounces| :: s.life.bounces[i] in s.life.codes || s.bounce)
  }

  ghost predicate FairInv(s: Svc) {
    && ProcInv(s.pc, s.life)
    && FlagsInv(s)
    && Excused(s)
    && (forall i | 0 <= i < |s.signals| && s.signals[i].hit.Some? :: s.signals[i].hit.value < s.life.next)
    && AllOver(s.pc, s.life, s.log)
    && AllDeserved(s.signals, s.log)
  }

  lemma LeakedGrows(log: seq<Event>, e: Event)
    ensures Leaked(log + [e]) == if e.Judged? then e.verdict.GateStopped? && e.verdict.flagLeft else Leaked(log)
  {
    assert (log + [e])[..|log|] == log;
  }

  lemma ToldGrows(signals: seq<Signal>, g: Signal, k: Inc)
    ensures Relaunched(signals + [g], k) <==> Relaunched(signals, k) || (g.hit == Some(k) && Relaunches(g.sender))
    ensures GateClosed(signals + [g], k) <==> GateClosed(signals, k) || (g.hit == Some(k) && g.sender.GateWatch?)
  {
    var all := signals + [g];
    assert all[|signals|] == g;
    if Relaunched(signals, k) {
      var i :| 0 <= i < |signals| && signals[i].hit == Some(k) && Relaunches(signals[i].sender);
      assert all[i] == signals[i];
    }
    if GateClosed(signals, k) {
      var i :| 0 <= i < |signals| && signals[i].hit == Some(k) && signals[i].sender.GateWatch?;
      assert all[i] == signals[i];
    }
  }

  lemma DeservedGrows(signals: seq<Signal>, log: seq<Event>, e: Event)
    requires AllDeserved(signals, log) && Deserved(signals, log, e)
    ensures AllDeserved(signals, log + [e])
  {
    var all := log + [e];
    forall i | 0 <= i < |all| ensures Deserved(signals, all[..i], all[i]) {
      assert all[..i] == if i == |log| then log else log[..i];
    }
  }

  /** A signal to an incarnation no verdict names changes no verdict. */
  lemma SignalKeepsVerdicts(pc: Pc, l: Life, signals: seq<Signal>, g: Signal, log: seq<Event>)
    requires AllDeserved(signals, log) && AllOver(pc, l, log)
    requires Relaunches(g.sender) || g.sender.GateWatch? ==> InIncarnation(pc) && g.hit == l.proc
    ensures AllDeserved(signals + [g], log)
  {
    forall i | 0 <= i < |log| ensures Deserved(signals + [g], log[..i], log[i]) {
      assert Deserved(signals, log[..i], log[i]);
      if log[i].Judged? && log[i].inc.Some? { ToldGrows(signals, g, log[i].inc.value); }
    }
  }

  /** Sending a signal keeps the invariant when the flag it stands for is set with it. */
  lemma SignalKeeps(s: Svc, g: Signal, s': Svc)
    requires FairInv(s) && ProcInv(s'.pc, s'.life) && g.hit == s.life.proc
    requires s'.signals == s.signals + [g] && s'.log == s.log
    requires s'.life.proc == s.life.proc && s'.life.next == s.life.next
    requires s'.pc == s.pc || (InIncarnation(s.pc) && InIncarnation(s'.pc))
    requires Relaunches(g.sender) ==> s'.bounce && InIncarnation(s.pc)
    requires g.sender.GateWatch? ==> s'.gateStop && InIncarnation(s.pc)
    requires s'.bounce == s.bounce || (Relaunches(g.sender) && s'.bounce)
    requires s'.gateStop == s.gateStop || (g.sender.GateWatch? && s'.gateStop)
    requires Excused(s')
    ensures FairInv(s')
  {
    SignalKeepsVerdicts(s.pc, s.life, s.signals, g, s.log);
    if s.life.proc.Some? { ToldGrows(s.signals, g, s.life.proc.value); }
    if s.pc.Judging? && s.pc.inc.Some? { ToldGrows(s.signals, g, s.pc.inc.value); }
  }

  /** Recording an event keeps the invariant when its verdict is deserved. */
  lemma EventKeeps(s: Svc, e: Event, s': Svc)
    requires FairInv(s) && ProcInv(s'.pc, s'.life) && Deserved(s.signals, s.log, e)
    requires s'.signals == s.signals && s'.log == s.log + [e] && s'.life == s.life
    requires e.Judged? ==> Over(s'.pc, s'.life, e.inc)
    requires InIncarnation(s'.pc) ==> InIncarnation(s.pc)
    requires FlagsInv(s') && Excused(s')
    ensures FairInv(s')
  {
    DeservedGrows(s.signals, s.log, e);
  }

  lemma ClassifyFair(c: Config, s: Svc, inc: Option<Inc>, code: int)
    requires FairInv(s) && !Live(s.life) && !s.pc.Ended? && !s.pc.Judging?
    requires s.life.gateW.Off? && s.life.pathW.Off?
    requires inc == if InIncarnation(s.pc) then s.life.proc else None
    ensures FairInv(Classify(c, s, inc, code))
  {
    var s' := Classify(c, s, inc, code);
    ClassifyStays(c, s, inc, code);
    if s.stopping {
    } else if s.gateStop {
      LeakedGrows(s.log, Judged(inc, code, GateStopped(s.bounce), s.now));
      EventKeeps(s, Judged(inc, code, GateStopped(s.bounce), s.now), s');
    } else if s.bounce {
      LeakedGrows(s.log, Judged(inc, code, Bounced, s.now));
      EventKeeps(s, Judged(inc, code, Bounced, s.now), s');
    } else if code in c.noRetry {
      LeakedGrows(s.log, Judged(inc, code, NoRetry, s.now));
      EventKeeps(s, Judged(inc, code, NoRetry, s.now), s');
    } else if |c.gates| == 0 {
      LeakedGrows(s.log, Judged(inc, code, Charged, s.now));
      EventKeeps(s, Judged(inc, code, Charged, s.now), s');
    }
  }

  lemma FairEnv(s: Svc, a: EnvAct)
    requires FairInv(s) && CanEnv(s, a)
    ensures FairInv(StepEnv(s, a))
  {
    KeptEnv(s, a);
  }

  lemma FairDep(c: Config, s: Svc, a: DepAct)
    requires FairInv(s) && CanDep(c, s, a)
    ensures FairInv(StepDep(c, s, a))
  {
    KeptDep(c, s, a);
  }

  lemma NoteFair(s: Svc, e: Event, s': Svc)
    requires FairInv(s) && ProcInv(s'.pc, s'.life) && !e.Judged? && !s.pc.Ended?
    requires s' == s.(pc := s'.pc, log := s.log + [e], failTimes := s'.failTimes, ready := s'.ready)
    requires InIncarnation(s'.pc) <==> InIncarnation(s.pc)
    requires s'.pc.Judging? ==> s'.pc == s.pc
    ensures FairInv(s')
  {
    LeakedGrows(s.log, e);
    EventKeeps(s, e, s');
  }

  lemma FairGate(c: Config, s: Svc, a: GateAct)
    requires FairInv(s) && CanGate(c, s, a)
    ensures FairInv(StepGate(c, s, a))
  {
    KeptGate(c, s, a);
    var s' := StepGate(c, s, a);
    match a
    case LoopTop => if s'.pc.Rendering? { NoteFair(s, Attempt, s'); }
    case GateAnswer(failing) =>
      var mid := s.(log := s.log + [GateRound(failing)]);
      NoteFair(s, GateRound(failing), mid);
      NoteFair(mid, if |failing| == 0 then Attempt else EnteredBlocked, s');
    case ParkWake =>
    case ParkAnswer(failing) => NoteFair(s, GateRound(failing), s');
  }

  lemma FairSpawn(c: Config, s: Svc, a: SpawnAct)
    requires FairInv(s) && CanSpawn(s, a)
    ensures FairInv(StepSpawn(c, s, a))
  {
    KeptSpawn(c, s, a);
    if !a.ok { ClassifyFair(c, s, None, 127); }
  }

  lemma FairRun(s: Svc, a: RunAct)
    requires FairInv(s) && CanRun(s, a)
    ensures FairInv(StepRun(s, a))
  {
    KeptRun(s, a);
    var s' := StepRun(s, a);
    match a
    case ProbeEnds(ready) => if ready { NoteFair(s, BecameReady, s'); }
    case ProbeTimeout => SignalKeeps(s, Signal(ReadyTimeout, true, s.life.proc, s.life.registered), s');
    case SeeExit =>
    case Reaped => SignalKeeps(s, Signal(PostExit, true, s.life.proc, s.life.registered), s');
  }

  lemma FairJudge(c: Config, s: Svc, a: JudgeAct)
    requires FairInv(s) && CanJudge(c, s, a)
    ensures FairInv(StepJudge(c, s, a))
  {
    KeptJudge(c, s, a);
    var s' := StepJudge(c, s, a);
    match a
    case Drained => ClassifyFair(c, s.(ready := false), s.life.proc, s.life.codes[s.life.proc.value]);
    case JudgeAnswer(failing) =>
      var mid := s.(log := s.log + [GateRound(failing)]);
      NoteFair(s, GateRound(failing), mid);
      var e := Judged(s.pc.inc, s.pc.code, if |failing| == 0 then Charged else GateFailing, s.now);
      LeakedGrows(mid.log, e);
      EventKeeps(mid, e, s');
    case BackoffOver =>
  }

  lemma FairWatch(s: Svc, a: WatchAct)
    requires FairInv(s) && CanWatch(s, a)
    ensures FairInv(StepWatch(s, a))
  {
    KeptWatch(s, a);
    var s' := StepWatch(s, a);
    match a
    case GateCloses => SignalKeeps(s, Signal(GateWatch, false, s.life.proc, s.life.registered), s');
    case GateKills => SignalKeeps(s, Signal(GateWatch, true, Some(s.life.gateW.meant), s.life.registered), s');
    case PathMoves => SignalKeeps(s, Signal(PathWatch, false, s.life.proc, s.life.registered), s');
    case PathKills => SignalKeeps(s, Signal(PathWatch, true, Some(s.life.pathW.meant), s.life.registered), s');
    case _ =>
  }

  lemma FairCall(s: Svc, a: CallAct)
    requires FairInv(s) && CanCall(s, a)
    ensures FairInv(StepCall(s, a))
  {
    KeptCall(s, a);
    var s' := StepCall(s, a);
    match a
    case BounceCall =>
      if s' != s { SignalKeeps(s, Signal(Bounce, false, s.life.proc, s.life.registered), s'); }
    case BounceWaitOver(i) =>
      var p := s.life.bounces[i];
      if p !in s.life.codes { SignalKeeps(s, Signal(Bounce, true, Some(p), s.life.registered), s'); }
    case StopCall => SignalKeeps(s, Signal(Stop, !Live(s.life), s.life.proc, s.life.registered), s');
    case StopWaitOver => SignalKeeps(s, Signal(Stop, true, s.life.proc, s.life.registered), s');
  }

  lemma FairStep(c: Config, s: Svc, a: Action)
    requires FairInv(s) && Enabled(c, s, a)
    ensures FairInv(Step(c, s, a))
  {
    match a
    case Env(e) => FairEnv(s, e);
    case Dep(d) => FairDep(c, s, d);
    case Gate(g) => FairGate(c, s, g);
    case Spawn(p) => FairSpawn(c, s, p);
    case Run(r) => FairRun(s, r);
    case Judge(j) => FairJudge(c, s, j);
    case Watch(w) => FairWatch(s, w);
    case Call(k) => FairCall(s, k);
  }

  /** Over every run: an incarnation that `restart`, the path watcher or a gate watcher told to stop is never
      charged, failed or put down to a crash under a failing gate; an exit is excused as a gate stop only if
      the gate watcher stopped it; and it is excused as a bounce only if it was told to relaunch, or if the
      bounce flag survived an earlier gate stop. */
  lemma {:induction false} VerdictsAreDeserved(c: Config, acts: seq<Action>)
    requires After(c, acts).Some?
    ensures FairInv(After(c, acts).value)
  {
    if |acts| == 0 {
    } else {
      VerdictsAreDeserved(c, acts[..|acts| - 1]);
      FairStep(c, After(c, acts[..|acts| - 1]).value, acts[|acts| - 1]);
    }
  }
}
