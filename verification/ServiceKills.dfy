/** Every signal lands on the incarnation it was meant for. */
module ServiceKills {
  import opened Wrappers
  import opened ServiceModel

  /** Senders that may only ever hit the incarnation they mean: all but `stop`, which ends in an unconditional
      sweep. */
  predicate Guarded(sender: Sender) {
    !sender.Stop?
  }

  predicate Fair(g: Signal) {
    Guarded(g.sender) ==> g.meant.Some? && g.hit == g.meant
  }

  ghost predicate NoStray(signals: seq<Signal>) {
    forall i | 0 <= i < |signals| :: Fair(signals[i])
  }

  predicate InIncarnation(pc: Pc) {
    pc.Probing? || pc.AwaitExit? || pc.Reaping? || pc.Draining?
  }

  predicate WatcherOk(pc: Pc, l: Life, w: Watcher) {
    && (!w.Off? ==> pc.Probing? || pc.AwaitExit? || pc.Reaping?)
    && (w.Terminating? ==> l.proc == Some(w.meant))
  }

  /** Every incarnation but the current one has been reaped, and every `restart` still waiting captured
      an incarnation that exists. */
  ghost predicate Numbered(l: Life) {
    && l.registered == l.proc
    && l.proc == (if l.next == 0 then None else Some(l.next - 1))
    && (forall n :: n in l.codes ==> n < l.next)
    && (forall n: Inc | n + 1 < l.next :: n in l.codes)
    && (forall i | 0 <= i < |l.bounces| :: l.bounces[i] < l.next)
  }

  /** What ties the run loop's position to the process and the tasks beside it: a live process only while
      the run loop waits on it, and watchers only beside the incarnation they watch. */
  ghost predicate ProcInv(pc: Pc, l: Life) {
    && Numbered(l)
    && (InIncarnation(pc) ==> l.proc.Some?)
    && (Live(l) ==> pc.Probing? || pc.AwaitExit?)
    && WatcherOk(pc, l, l.gateW) && WatcherOk(pc, l, l.pathW)
  }

  /** A step sends at most one signal, and a guarded one only at the incarnation it was meant for. */
  ghost predicate Clean(signals: seq<Signal>, signals': seq<Signal>) {
    signals' == signals || exists g :: signals' == signals + [g] && Fair(g)
  }

  ghost predicate Kept(s: Svc, s': Svc) {
    ProcInv(s'.pc, s'.life) && Clean(s.signals, s'.signals)
  }

  lemma ClassifyStays(c: Config, s: Svc, inc: Option<Inc>, code: int)
    ensures var s' := Classify(c, s, inc, code);
            s'.life == s.life && s'.signals == s.signals && !InIncarnation(s'.pc)
  {
  }

  lemma KeptEnv(s: Svc, a: EnvAct)
    requires ProcInv(s.pc, s.life) && CanEnv(s, a)
    ensures Kept(s, StepEnv(s, a))
  {
  }

  lemma KeptDep(c: Config, s: Svc, a: DepAct)
    requires ProcInv(s.pc, s.life) && CanDep(c, s, a)
    ensures Kept(s, StepDep(c, s, a))
  {
  }

  lemma KeptGate(c: Config, s: Svc, a: GateAct)
    requires ProcInv(s.pc, s.life) && CanGate(c, s, a)
    ensures Kept(s, StepGate(c, s, a))
  {
  }

  lemma KeptSpawn(c: Config, s: Svc, a: SpawnAct)
    requires ProcInv(s.pc, s.life) && CanSpawn(s, a)
    ensures Kept(s, StepSpawn(c, s, a))
  {
    ClassifyStays(c, s, None, 127);
  }

  lemma KeptRun(s: Svc, a: RunAct)
    requires ProcInv(s.pc, s.life) && CanRun(s, a)
    ensures Kept(s, StepRun(s, a))
  {
  }

  lemma KeptJudge(c: Config, s: Svc, a: JudgeAct)
    requires ProcInv(s.pc, s.life) && CanJudge(c, s, a)
    ensures Kept(s, StepJudge(c, s, a))
  {
    if a.Drained? { ClassifyStays(c, s.(ready := false), s.life.proc, s.life.codes[s.life.proc.value]); }
  }

  lemma KeptWatch(s: Svc, a: WatchAct)
    requires ProcInv(s.pc, s.life) && CanWatch(s, a)
    ensures Kept(s, StepWatch(s, a))
  {
  }

  lemma KeptCall(s: Svc, a: CallAct)
    requires ProcInv(s.pc, s.life) && CanCall(s, a)
    ensures Kept(s, StepCall(s, a))
  {
  }

  lemma KeptStep(c: Config, s: Svc, a: Action)
    requires ProcInv(s.pc, s.life) && Enabled(c, s, a)
    ensures Kept(s, Step(c, s, a))
  {
    match a
    case Env(e) => KeptEnv(s, e);
    case Dep(d) => KeptDep(c, s, d);
    case Gate(g) => KeptGate(c, s, g);
    case Spawn(p) => KeptSpawn(c, s, p);
    case Run(r) => KeptRun(s, r);
    case Judge(j) => KeptJudge(c, s, j);
    case Watch(w) => KeptWatch(s, w);
    case Call(k) => KeptCall(s, k);
  }

  /** Over every run: no signal of `restart`, the readiness timeout or a watcher ever lands on an incarnation
      other than the one it decided to stop, nor the post-exit sweep on another than the one that exited. */
  lemma {:induction false} NoStrayKill(c: Config, acts: seq<Action>)
    requires After(c, acts).Some?
    ensures var s := After(c, acts).value; ProcInv(s.pc, s.life) && NoStray(s.signals)
  {
    if |acts| == 0 {
    } else {
      NoStrayKill(c, acts[..|acts| - 1]);
      KeptStep(c, After(c, acts[..|acts| - 1]).value, acts[|acts| - 1]);
    }
  }
}
