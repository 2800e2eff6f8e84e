/** What the signals come to over whole runs: a process asked to stop is killed unless it exits, is not killed before
    it was asked, and is swept up after before anything else is started. */
module ServiceSignals {
  import opened Wrappers
  import opened ServiceModel
  import opened ServiceKills
  import opened ServiceFairness
  import opened ServiceStart

  /** The sender's gentle signal went to process k. */
  ghost predicate Asked(signals: seq<Signal>, sender: Sender, k: Inc) {
    exists i | 0 <= i < |signals| :: signals[i].sender == sender && !signals[i].kill && signals[i].hit == Some(k)
  }

  /** The sweep after the exit of process k. */
  ghost predicate Swept(signals: seq<Signal>, k: Inc) {
    exists i | 0 <= i < |signals| :: signals[i].sender.PostExit? && signals[i].kill && signals[i].hit == Some(k)
  }

  /** The sender is still in its grace period. */
  predicate Waits(l: Life, stopper: Stopper, sender: Sender, k: Inc) {
    match sender
    case Bounce => k in l.bounces
    case GateWatch => l.gateW == Terminating(k)
    case PathWatch => l.pathW == Terminating(k)
    case Stop => stopper.StopWaiting?
    case ReadyTimeout | PostExit => false
  }

  /** A process asked to stop has exited, has been sent SIGKILL, or whoever asked still waits for it. */
  ghost predicate Escalates(s: Svc, g: Signal) {
    !g.kill && g.hit.Some? ==>
      || g.hit.value in s.life.codes || Killed(s.signals, g.hit.value)
      || Waits(s.life, s.stopper, g.sender, g.hit.value)
  }

  /** A process is killed by `restart`, a watcher or `stop` only after that asked it; `stop` also kills what has exited
      or was started after the call. */
  ghost predicate Patient(s: Svc, before: seq<Signal>, g: Signal) {
    g.kill && g.hit.Some? ==>
      match g.sender
      case ReadyTimeout | PostExit => true
      case Stop => Asked(before, Stop, g.hit.value) || g.hit.value in s.life.codes || g.hit.value >= s.stopNext
      case _ => Asked(before, g.sender, g.hit.value)
  }

  ghost predicate AllEscalate(s: Svc) {
    forall i {:trigger EscalatesAt(s, i)} | 0 <= i < |s.signals| :: EscalatesAt(s, i)
  }

  ghost predicate EscalatesAt(s: Svc, i: int) {
    0 <= i < |s.signals| && Escalates(s, s.signals[i]) &&
    (s.signals[i].hit.Some? ==> s.signals[i].hit.value < s.life.next)
  }

  ghost predicate AllPatient(s: Svc) {
    forall i {:trigger PatientAt(s, i)} | 0 <= i < |s.signals| :: PatientAt(s, i)
  }

  ghost predicate PatientAt(s: Svc, i: int) {
    0 <= i < |s.signals| && Patient(s, s.signals[..i], s.signals[i])
  }

  /** Whoever waits has asked. */
  ghost predicate WaitersAsked(s: Svc) {
    && (forall i | 0 <= i < |s.life.bounces| :: Asked(s.signals, Bounce, s.life.bounces[i]))
    && (s.life.gateW.Terminating? ==> Asked(s.signals, GateWatch, s.life.gateW.meant))
    && (s.life.pathW.Terminating? ==> Asked(s.signals, PathWatch, s.life.pathW.meant))
    && (s.stopper.StopWaiting? ==> s.stopNext > 0 && Asked(s.signals, Stop, s.stopNext - 1))
    && (if s.stopper.NotAsked? then !StopSent(s) else s.stopNext <= s.life.next)
  }

  /** Every process but the one the run loop still waits for has been swept up after. */
  ghost predicate AllSwept(s: Svc) {
    forall k: Inc {:trigger Swept(s.signals, k)} | k < s.life.next ::
      Swept(s.signals, k) || (k == s.life.next - 1 && (s.pc.Probing? || s.pc.AwaitExit? || s.pc.Reaping?))
  }

  ghost predicate SignalInv(s: Svc) {
    AllEscalate(s) && AllPatient(s) && WaitersAsked(s) && AllSwept(s)
  }

  lemma AskedGrows(signals: seq<Signal>, g: Signal, sender: Sender, k: Inc)
    ensures Asked(signals, sender, k) ==> Asked(signals + [g], sender, k)
    ensures g.sender == sender && !g.kill && g.hit == Some(k) ==> Asked(signals + [g], sender, k)
  {
    assert (signals + [g])[|signals|] == g;
    if Asked(signals, sender, k) {
      var i :| 0 <= i < |signals| && signals[i].sender == sender && !signals[i].kill && signals[i].hit == Some(k);
      assert (signals + [g])[i] == signals[i];
    }
  }

  lemma SweptGrows(signals: seq<Signal>, g: Signal, k: Inc)
    ensures Swept(signals, k) ==> Swept(signals + [g], k)
    ensures g.sender.PostExit? && g.kill && g.hit == Some(k) ==> Swept(signals + [g], k)
  {
    assert (signals + [g])[|signals|] == g;
    if Swept(signals, k) {
      var i :| 0 <= i < |signals| && signals[i].sender.PostExit? && signals[i].kill && signals[i].hit == Some(k);
      assert (signals + [g])[i] == signals[i];
    }
  }

  /** Nobody stops waiting without the process having exited or been killed. */
  ghost predicate NoneGivesUp(s: Svc, s': Svc) {
    forall sender, k: Inc {:trigger Waits(s.life, s.stopper, sender, k)} |
      k < s.life.next && Waits(s.life, s.stopper, sender, k) ::
      Waits(s'.life, s'.stopper, sender, k) || k in s'.life.codes || Killed(s'.signals, k)
  }

  /** Steps without a signal. */
  lemma SilentEscalates(s: Svc, s': Svc)
    requires AllEscalate(s) && s'.signals == s.signals && s.life.next <= s'.life.next
    requires forall k | k in s.life.codes :: k in s'.life.codes
    requires NoneGivesUp(s, s')
    ensures AllEscalate(s')
  {
    forall i | 0 <= i < |s'.signals| ensures EscalatesAt(s', i) {
      assert EscalatesAt(s, i);
    }
  }

  lemma SilentPatient(s: Svc, s': Svc)
    requires AllPatient(s) && s'.signals == s.signals && (s'.stopNext == s.stopNext || !StopSent(s))
    requires forall k | k in s.life.codes :: k in s'.life.codes
    ensures AllPatient(s')
  {
    forall i | 0 <= i < |s'.signals| ensures PatientAt(s', i) {
      assert PatientAt(s, i);
    }
  }

  /** `stop` has sent a signal. */
  predicate StopSent(s: Svc) {
    exists i | 0 <= i < |s.signals| :: s.signals[i].sender.Stop?
  }

  lemma SignalEscalates(s: Svc, g: Signal, s': Svc)
    requires AllEscalate(s) && s'.signals == s.signals + [g] && s.life.next <= s'.life.next
    requires forall k | k in s.life.codes :: k in s'.life.codes
    requires NoneGivesUp(s, s') && (g.hit.Some? ==> g.hit.value < s'.life.next) && Escalates(s', g)
    ensures AllEscalate(s')
  {
    forall i | 0 <= i < |s'.signals| ensures EscalatesAt(s', i) {
      if i < |s.signals| {
        assert EscalatesAt(s, i);
        if s.signals[i].hit.Some? { KilledGrows(s.signals, g, s.signals[i].hit.value); }
      }
    }
  }

  lemma SignalPatient(s: Svc, g: Signal, s': Svc)
    requires AllPatient(s) && s'.signals == s.signals + [g] && (s'.stopNext == s.stopNext || !StopSent(s))
    requires forall k | k in s.life.codes :: k in s'.life.codes
    requires Patient(s', s.signals, g)
    ensures AllPatient(s')
  {
    forall i | 0 <= i < |s'.signals| ensures PatientAt(s', i) {
      if i < |s.signals| {
        assert PatientAt(s, i) && s'.signals[..i] == s.signals[..i];
      } else {
        assert s'.signals[..i] == s.signals;
      }
    }
  }

  lemma SignalWaiters(s: Svc, g: Signal, s': Svc)
    requires WaitersAsked(s) && s'.signals == s.signals + [g] && s.life.next == s'.life.next
    requires forall i | 0 <= i < |s'.life.bounces| :: s'.life.bounces[i] in s.life.bounces || Shows(g, Bounce, s'.life.bounces[i])
    requires s'.life.gateW == s.life.gateW || (s'.life.gateW.Terminating? ==> Shows(g, GateWatch, s'.life.gateW.meant))
    requires s'.life.pathW == s.life.pathW || (s'.life.pathW.Terminating? ==> Shows(g, PathWatch, s'.life.pathW.meant))
    requires s'.stopper == s.stopper && s'.stopNext == s.stopNext && !g.sender.Stop?
    ensures WaitersAsked(s')
  {
    forall i | 0 <= i < |s'.life.bounces| ensures Asked(s'.signals, Bounce, s'.life.bounces[i]) {
      AskedGrows(s.signals, g, Bounce, s'.life.bounces[i]);
    }
    if s'.life.gateW.Terminating? { AskedGrows(s.signals, g, GateWatch, s'.life.gateW.meant); }
    if s'.life.pathW.Terminating? { AskedGrows(s.signals, g, PathWatch, s'.life.pathW.meant); }
    if s.stopper.StopWaiting? { AskedGrows(s.signals, g, Stop, s.stopNext - 1); }
  }

  predicate Shows(g: Signal, sender: Sender, k: Inc) {
    g.sender == sender && !g.kill && g.hit == Some(k)
  }

  lemma SignalSwept(s: Svc, g: Signal, s': Svc)
    requires AllSwept(s) && s'.signals == s.signals + [g] && s.life.next == s'.life.next
    requires s'.pc == s.pc || (s.pc.Probing? && s'.pc.AwaitExit?) ||
             (g.sender.PostExit? && g.kill && s.life.next > 0 && g.hit == Some(s.life.next - 1))
    ensures AllSwept(s')
  {
    forall k: Inc | k < s'.life.next
      ensures Swept(s'.signals, k) || (k == s'.life.next - 1 && (s'.pc.Probing? || s'.pc.AwaitExit? || s'.pc.Reaping?))
    {
      SweptGrows(s.signals, g, k);
    }
  }

  /** A signal of a watcher, of `restart`, or of the run loop. */
  lemma SignalKept(s: Svc, g: Signal, s': Svc)
    requires SignalInv(s) && s'.signals == s.signals + [g] && s.life.next == s'.life.next
    requires s'.life.codes == s.life.codes && s'.stopper == s.stopper && s'.stopNext == s.stopNext && !g.sender.Stop?
    requires forall i | 0 <= i < |s'.life.bounces| :: s'.life.bounces[i] in s.life.bounces || Shows(g, Bounce, s'.life.bounces[i])
    requires s'.life.gateW == s.life.gateW || (s'.life.gateW.Terminating? ==> Shows(g, GateWatch, s'.life.gateW.meant))
    requires s'.life.pathW == s.life.pathW || (s'.life.pathW.Terminating? ==> Shows(g, PathWatch, s'.life.pathW.meant))
    requires NoneGivesUp(s, s') && (g.hit.Some? ==> g.hit.value < s'.life.next)
    requires Escalates(s', g) && Patient(s', s.signals, g)
    requires s'.pc == s.pc || (s.pc.Probing? && s'.pc.AwaitExit?) ||
             (g.sender.PostExit? && g.kill && s.life.next > 0 && g.hit == Some(s.life.next - 1))
    ensures SignalInv(s')
  {
    SignalEscalates(s, g, s');
    SignalPatient(s, g, s');
    SignalWaiters(s, g, s');
    SignalSwept(s, g, s');
  }

  lemma SilentKept(s: Svc, s': Svc)
    requires SignalInv(s) && s'.signals == s.signals && s'.life.bounces == s.life.bounces
    requires forall k | k in s.life.codes :: k in s'.life.codes
    requires s'.stopper == s.stopper && s'.stopNext == s.stopNext
    requires s'.life.gateW == s.life.gateW || (s'.life.gateW.Off? && InCodes(s, s.life.gateW))
    requires s'.life.pathW == s.life.pathW || (s'.life.pathW.Off? && InCodes(s, s.life.pathW))
    requires s'.life.next == s.life.next
    requires s'.pc.Probing? || s'.pc.AwaitExit? || s'.pc.Reaping? <==> s.pc.Probing? || s.pc.AwaitExit? || s.pc.Reaping?
    ensures SignalInv(s')
  {
    SilentEscalates(s, s');
    SilentPatient(s, s');
  }

  predicate InCodes(s: Svc, w: Watcher) {
    w.Terminating? ==> w.meant in s.life.codes
  }

  lemma SignalsEnv(s: Svc, a: EnvAct)
    requires SignalInv(s) && CanEnv(s, a)
    ensures SignalInv(StepEnv(s, a))
  {
    SilentKept(s, StepEnv(s, a));
  }

  lemma SignalsDep(c: Config, s: Svc, a: DepAct)
    requires SignalInv(s) && CanDep(c, s, a)
    ensures SignalInv(StepDep(c, s, a))
  {
    SilentKept(s, StepDep(c, s, a));
  }

  lemma SignalsGate(c: Config, s: Svc, a: GateAct)
    requires SignalInv(s) && CanGate(c, s, a)
    ensures SignalInv(StepGate(c, s, a))
  {
    SilentKept(s, StepGate(c, s, a));
  }

  /** A new process is not swept yet, all before it are. */
  lemma SignalsFork(c: Config, s: Svc, watches: bool)
    requires SignalInv(s) && ProcInv(s.pc, s.life) && CanSpawn(s, ForkDone(true, watches))
    ensures SignalInv(StepSpawn(c, s, ForkDone(true, watches)))
  {
    var s' := StepSpawn(c, s, ForkDone(true, watches));
    SilentEscalates(s, s');
    SilentPatient(s, s');
  }

  lemma SignalsSpawn(c: Config, s: Svc, a: SpawnAct)
    requires SignalInv(s) && ProcInv(s.pc, s.life) && CanSpawn(s, a)
    ensures SignalInv(StepSpawn(c, s, a))
  {
    if a.ok && a.ForkDone? {
      SignalsFork(c, s, a.watches);
    } else {
      SilentKept(s, StepSpawn(c, s, a));
    }
  }

  lemma SignalsRun(s: Svc, a: RunAct)
    requires SignalInv(s) && ProcInv(s.pc, s.life) && CanRun(s, a)
    ensures SignalInv(StepRun(s, a))
  {
    var s' := StepRun(s, a);
    if s'.signals == s.signals { SilentKept(s, s'); } else { SignalKept(s, s'.signals[|s.signals|], s'); }
  }

  lemma SignalsJudge(c: Config, s: Svc, a: JudgeAct)
    requires SignalInv(s) && CanJudge(c, s, a)
    ensures SignalInv(StepJudge(c, s, a))
  {
    SilentKept(s, StepJudge(c, s, a));
  }

  lemma SignalsWatch(s: Svc, a: WatchAct)
    requires SignalInv(s) && ProcInv(s.pc, s.life) && CanWatch(s, a)
    ensures SignalInv(StepWatch(s, a))
  {
    var s' := StepWatch(s, a);
    if s'.signals == s.signals { SilentKept(s, s'); } else {
      var g := s'.signals[|s.signals|];
      if g.hit.Some? { KilledGrows(s.signals, g, g.hit.value); }
      SignalKept(s, g, s');
    }
  }

  lemma SignalsBounce(s: Svc)
    requires SignalInv(s) && ProcInv(s.pc, s.life)
    ensures SignalInv(Restart(s))
  {
    var s' := Restart(s);
    if s' != s { SignalKept(s, s'.signals[|s.signals|], s'); }
  }

  lemma SignalsBounceOver(s: Svc, i: nat)
    requires SignalInv(s) && ProcInv(s.pc, s.life) && i < |s.life.bounces|
    ensures SignalInv(RestartEscalates(s, i))
  {
    var s', p := RestartEscalates(s, i), s.life.bounces[i];
    assert forall b | b in s.life.bounces :: b in s'.life.bounces || b == p;
    if p in s.life.codes {
      SilentEscalates(s, s');
      SilentPatient(s, s');
    } else {
      var g := s'.signals[|s.signals|];
      KilledGrows(s.signals, g, p);
      SignalKept(s, g, s');
    }
  }

  lemma SignalsStop(s: Svc, a: CallAct)
    requires SignalInv(s) && ProcInv(s.pc, s.life) && CanCall(s, a) && (a.StopCall? || a.StopWaitOver?)
    ensures SignalInv(StepCall(s, a))
  {
    var s' := StepCall(s, a);
    var g := s'.signals[|s.signals|];
    if g.hit.Some? { KilledGrows(s.signals, g, g.hit.value); AskedGrows(s.signals, g, Stop, g.hit.value); }
    StopKeepsWaiters(s, g, s');
    SignalSwept(s, g, s');
    SignalPatient(s, g, s');
    SignalEscalates(s, g, s');
  }

  lemma StopKeepsWaiters(s: Svc, g: Signal, s': Svc)
    requires WaitersAsked(s) && s'.signals == s.signals + [g] && s'.life == s.life && g.sender.Stop?
    requires s'.stopNext <= s'.life.next && !s'.stopper.NotAsked?
    requires s'.stopper.StopWaiting? ==> s'.stopNext > 0 && Shows(g, Stop, s'.stopNext - 1)
    ensures WaitersAsked(s')
  {
    forall i | 0 <= i < |s.life.bounces| ensures Asked(s'.signals, Bounce, s.life.bounces[i]) {
      AskedGrows(s.signals, g, Bounce, s.life.bounces[i]);
    }
    if s.life.gateW.Terminating? { AskedGrows(s.signals, g, GateWatch, s.life.gateW.meant); }
    if s.life.pathW.Terminating? { AskedGrows(s.signals, g, PathWatch, s.life.pathW.meant); }
    if s'.stopper.StopWaiting? { AskedGrows(s.signals, g, Stop, s'.stopNext - 1); }
  }

  lemma SignalsCall(s: Svc, a: CallAct)
    requires SignalInv(s) && ProcInv(s.pc, s.life) && CanCall(s, a)
    ensures SignalInv(StepCall(s, a))
  {
    match a
    case BounceCall => SignalsBounce(s);
    case BounceWaitOver(i) => SignalsBounceOver(s, i);
    case StopCall | StopWaitOver => SignalsStop(s, a);
  }

  lemma SignalsStep(c: Config, s: Svc, a: Action)
    requires SignalInv(s) && ProcInv(s.pc, s.life) && Enabled(c, s, a)
    ensures SignalInv(Step(c, s, a))
  {
    match a
    case Env(e) => SignalsEnv(s, e);
    case Dep(d) => SignalsDep(c, s, d);
    case Gate(g) => SignalsGate(c, s, g);
    case Spawn(p) => SignalsSpawn(c, s, p);
    case Run(r) => SignalsRun(s, r);
    case Judge(j) => SignalsJudge(c, s, j);
    case Watch(w) => SignalsWatch(s, w);
    case Call(k) => SignalsCall(s, k);
  }

  /** Over every run: a process that `restart`, a watcher or `stop` asked to stop has exited, has been sent SIGKILL, or
      is still given its grace period; it is not killed by them unasked; and before another process is started the
      whole group of the last one has been swept with SIGKILL. */
  lemma {:induction false} SignalsEscalate(c: Config, acts: seq<Action>)
    requires After(c, acts).Some?
    ensures SignalInv(After(c, acts).value)
  {
    if |acts| == 0 {
    } else {
      SignalsEscalate(c, acts[..|acts| - 1]);
      NoStrayKill(c, acts[..|acts| - 1]);
      SignalsStep(c, After(c, acts[..|acts| - 1]).value, acts[|acts| - 1]);
    }
  }

  /** What makes a live process be asked: a restart, unless the service is stopping or the flag is up, a path that
      moves, a gate that closes, and `stop`. */
  lemma WhoAsks(s: Svc)
    requires ProcInv(s.pc, s.life) && Live(s.life)
    ensures !s.stopping && !s.bounce ==> Restart(s).bounce && Asked(Restart(s).signals, Bounce, s.life.proc.value)
    ensures s.life.pathW.Polling? && !s.stopping ==>
              var s' := StepWatch(s, PathMoves); s'.bounce && Asked(s'.signals, PathWatch, s.life.proc.value)
    ensures s.life.gateW.Polling? && !s.stopping ==>
              var s' := StepWatch(s, GateCloses); s'.gateStop && Asked(s'.signals, GateWatch, s.life.proc.value)
    ensures s.stopper.NotAsked? ==>
              var s' := StepCall(s, StopCall); s'.stopping && Asked(s'.signals, Stop, s.life.proc.value)
  {
    var k := s.life.proc.value;
    AskedGrows(s.signals, Signal(Bounce, false, Some(k), Some(k)), Bounce, k);
    AskedGrows(s.signals, Signal(PathWatch, false, Some(k), Some(k)), PathWatch, k);
    AskedGrows(s.signals, Signal(GateWatch, false, Some(k), Some(k)), GateWatch, k);
    AskedGrows(s.signals, Signal(Stop, false, Some(k), Some(k)), Stop, k);
  }
}
