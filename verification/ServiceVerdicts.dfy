/** What a service's record says over whole runs: which exits end the service, which are charged, and that every
    process started is judged once. */
module ServiceVerdicts {
  import opened Wrappers
  import opened ServiceModel
  import opened ServiceKills

  /** The event before is a gate round, passed or not. */
  predicate AfterRound(before: seq<Event>, passed: bool) {
    |before| > 0 && before[|before| - 1].GateRound? && (|before[|before| - 1].failing| == 0 <==> passed)
  }

  /** The code judged is the one the process exited with, or 127 if none was started. */
  predicate CodeOk(codes: map<Inc, int>, inc: Option<Inc>, code: int) {
    match inc
    case None => code == 127
    case Some(k) => k in codes && codes[k] == code
  }

  /** What a verdict says of the code, and of the gate round that it follows. */
  predicate VerdictOk(c: Config, before: seq<Event>, code: int, verdict: Verdict) {
    match verdict
    case NoRetry => code in c.noRetry
    case Charged => code !in c.noRetry && (|c.gates| > 0 ==> AfterRound(before, true))
    case GateFailing => code !in c.noRetry && AfterRound(before, false)
    case Bounced | GateStopped(_) => true
  }

  predicate EventOk(c: Config, codes: map<Inc, int>, before: seq<Event>, e: Event) {
    match e
    case GateRound(failing) => |c.gates| > 0 && Required(c, failing)
    case EnteredBlocked => AfterRound(before, false)
    case Judged(inc, code, verdict, _) => CodeOk(codes, inc, code) && VerdictOk(c, before, code, verdict)
    case Attempt | BecameReady => true
  }

  ghost predicate AllOk(c: Config, codes: map<Inc, int>, log: seq<Event>) {
    forall i {:trigger EventAt(c, codes, log, i)} | 0 <= i < |log| :: EventAt(c, codes, log, i)
  }

  predicate EventAt(c: Config, codes: map<Inc, int>, log: seq<Event>, i: int) {
    0 <= i < |log| && EventOk(c, codes, log[..i], log[i])
  }

  /** The latest judgement. */
  function LastVerdict(log: seq<Event>): Option<Verdict> {
    if |log| == 0 then None
    else if log[|log| - 1].Judged? then Some(log[|log| - 1].verdict)
    else LastVerdict(log[..|log| - 1])
  }

  /** What failed in the latest gate round. */
  function LastRound(log: seq<Event>): Option<seq<string>> {
    if |log| == 0 then None
    else if log[|log| - 1].GateRound? then Some(log[|log| - 1].failing)
    else LastRound(log[..|log| - 1])
  }

  /** The service has become ready since the latest attempt to start it. */
  predicate ReadySince(log: seq<Event>) {
    |log| > 0 && (log[|log| - 1].BecameReady? || (!log[|log| - 1].Attempt? && ReadySince(log[..|log| - 1])))
  }

  /** The processes judged, in order. */
  function JudgedIncs(log: seq<Event>): seq<Inc> {
    if |log| == 0 then []
    else
      var rest := JudgedIncs(log[..|log| - 1]);
      match log[|log| - 1]
      case Judged(Some(k), _, _, _) => rest + [k]
      case _ => rest
  }

  /** Attempts not judged yet. */
  function Unjudged(log: seq<Event>): int {
    if |log| == 0 then 0
    else
      var rest := Unjudged(log[..|log| - 1]);
      match log[|log| - 1]
      case Attempt => rest + 1
      case Judged(_, _, _, _) => rest - 1
      case _ => rest
  }

  predicate InAttempt(pc: Pc) {
    pc.Rendering? || pc.Forking? || InIncarnation(pc) || pc.Judging?
  }

  predicate HasProcess(pc: Pc) {
    InIncarnation(pc) || (pc.Judging? && pc.inc.Some?)
  }

  /** Each of the first processes is judged, once and in order. */
  ghost predicate JudgedFirst(log: seq<Event>, n: int) {
    |JudgedIncs(log)| == n && forall i | 0 <= i < n :: JudgedIncs(log)[i] == i
  }

  /** Where the run loop is, as the record has it. */
  ghost predicate PlaceOk(c: Config, codes: map<Inc, int>, pc: Pc, log: seq<Event>) {
    && (pc == Ended(NotWorthRetrying) <==> LastVerdict(log) == Some(NoRetry))
    && (pc.Judging? ==> CodeOk(codes, pc.inc, pc.code) && pc.code !in c.noRetry && |c.gates| > 0)
    && (pc.Gating? ==> |c.gates| > 0)
    && (pc.Parked? || pc.Unparking? ==> |c.gates| > 0 && LastRound(log).Some? && |LastRound(log).value| > 0)
    && (InAttempt(pc) && |c.gates| > 0 ==> LastRound(log) == Some([]))
    && (pc.BackingOff? || pc == Ended(OverBudget) || pc == Ended(Overflowed) ==> LastVerdict(log) == Some(Charged))
  }

  /** What is counted: one attempt in hand, and one process, exactly while the run loop is at it. */
  ghost predicate CountOk(l: Life, pc: Pc, log: seq<Event>) {
    if pc == Ended(Stopped) then
      0 <= Unjudged(log) <= 1 && (JudgedFirst(log, l.next) || (Unjudged(log) == 1 && JudgedFirst(log, l.next - 1)))
    else
      && Unjudged(log) == (if InAttempt(pc) then 1 else 0)
      && JudgedFirst(log, if HasProcess(pc) then l.next - 1 else l.next)
      && (pc.Judging? && pc.inc.Some? ==> pc.inc == l.proc)
  }

  predicate ReadyOk(pc: Pc, ready: bool, log: seq<Event>) {
    && (ready <==> (pc.AwaitExit? || pc.Reaping? || pc.Draining?) && ReadySince(log))
    && (pc.Rendering? || pc.Forking? || pc.Probing? ==> !ReadySince(log))
  }

  ghost predicate RecordInv(c: Config, s: Svc) {
    && AllOk(c, s.life.codes, s.log) && PlaceOk(c, s.life.codes, s.pc, s.log) && CountOk(s.life, s.pc, s.log)
    && ReadyOk(s.pc, s.ready, s.log) && (s.pc == Ended(Stopped) ==> s.stopping)
  }

  lemma RecordGrows(log: seq<Event>, e: Event)
    ensures var log' := log + [e];
            && LastVerdict(log') == (if e.Judged? then Some(e.verdict) else LastVerdict(log))
            && LastRound(log') == (if e.GateRound? then Some(e.failing) else LastRound(log))
            && (ReadySince(log') <==> e.BecameReady? || (!e.Attempt? && ReadySince(log)))
            && JudgedIncs(log') == JudgedIncs(log) + (if e.Judged? && e.inc.Some? then [e.inc.value] else [])
            && Unjudged(log') == Unjudged(log) + (if e.Attempt? then 1 else if e.Judged? then -1 else 0)
  {
    assert (log + [e])[..|log|] == log;
  }

  lemma AllOkGrows(c: Config, codes: map<Inc, int>, log: seq<Event>, e: Event)
    requires AllOk(c, codes, log) && EventOk(c, codes, log, e)
    ensures AllOk(c, codes, log + [e])
  {
    forall i | 0 <= i < |log + [e]| ensures EventAt(c, codes, log + [e], i) {
      if i < |log| {
        assert EventAt(c, codes, log, i) && (log + [e])[..i] == log[..i];
      } else {
        assert (log + [e])[..i] == log;
      }
    }
  }

  lemma ExitKeeps(c: Config, codes: map<Inc, int>, log: seq<Event>, k: Inc, code: int)
    requires AllOk(c, codes, log) && k !in codes
    ensures AllOk(c, codes[k := code], log)
  {
    var codes' := codes[k := code];
    forall i | 0 <= i < |log| ensures EventAt(c, codes', log, i) {
      assert EventAt(c, codes, log, i);
    }
  }

  lemma JudgeOne(log: seq<Event>, n: int, e: Event)
    requires JudgedFirst(log, n) && e.Judged?
    ensures e.inc == Some(n) ==> JudgedFirst(log + [e], n + 1)
    ensures e.inc.None? ==> JudgedFirst(log + [e], n)
  {
    RecordGrows(log, e);
  }

  /** An attempt is judged. */
  lemma JudgedKeeps(c: Config, l: Life, pc: Pc, log: seq<Event>, e: Event, s': Svc)
    requires AllOk(c, l.codes, log) && CountOk(l, pc, log) && ProcInv(pc, l) && InAttempt(pc) && e.Judged?
    requires e.inc == if HasProcess(pc) then l.proc else None
    requires EventOk(c, l.codes, log, e)
    requires s'.log == log + [e] && s'.life == l && !s'.ready
    requires if e.verdict.NoRetry? then s'.pc == Ended(NotWorthRetrying)
             else s'.pc.Top? || (e.verdict.Charged? && (s'.pc.BackingOff? || s'.pc in {Ended(OverBudget), Ended(Overflowed)}))
    ensures RecordInv(c, s')
  {
    RecordGrows(log, e);
    AllOkGrows(c, l.codes, log, e);
    JudgeOne(log, if HasProcess(pc) then l.next - 1 else l.next, e);
  }

  lemma ClassifyRecorded(c: Config, s: Svc, inc: Option<Inc>, code: int)
    requires AllOk(c, s.life.codes, s.log) && PlaceOk(c, s.life.codes, s.pc, s.log) && CountOk(s.life, s.pc, s.log)
    requires ProcInv(s.pc, s.life) && (s.pc.Rendering? || s.pc.Forking? || s.pc.Draining?) && !s.ready
    requires inc == (if s.pc.Draining? then s.life.proc else None) && CodeOk(s.life.codes, inc, code)
    ensures RecordInv(c, Classify(c, s, inc, code))
  {
    var s' := Classify(c, s, inc, code);
    if s'.log != s.log { JudgedKeeps(c, s.life, s.pc, s.log, s'.log[|s.log|], s'); }
  }

  lemma EnvRecorded(c: Config, s: Svc, a: EnvAct)
    requires RecordInv(c, s) && CanEnv(s, a)
    ensures RecordInv(c, StepEnv(s, a))
  {
    if a.Exited? { ExitKeeps(c, s.life.codes, s.log, s.life.proc.value, a.code); }
  }

  lemma GateRecorded(c: Config, s: Svc, a: GateAct)
    requires RecordInv(c, s) && CanGate(c, s, a)
    ensures RecordInv(c, StepGate(c, s, a))
  {
    match a
    case LoopTop =>
      RecordGrows(s.log, Attempt);
      AllOkGrows(c, s.life.codes, s.log, Attempt);
    case GateAnswer(failing) => AnswerRecorded(c, s, failing);
    case ParkWake =>
    case ParkAnswer(failing) => ParkRecorded(c, s, failing);
  }

  lemma ParkRecorded(c: Config, s: Svc, failing: seq<string>)
    requires RecordInv(c, s) && CanGate(c, s, ParkAnswer(failing))
    ensures RecordInv(c, StepGate(c, s, ParkAnswer(failing)))
  {
    RecordGrows(s.log, GateRound(failing));
    AllOkGrows(c, s.life.codes, s.log, GateRound(failing));
  }

  lemma AnswerRecorded(c: Config, s: Svc, failing: seq<string>)
    requires RecordInv(c, s) && CanGate(c, s, GateAnswer(failing))
    ensures RecordInv(c, StepGate(c, s, GateAnswer(failing)))
  {
    var mid, e := s.log + [GateRound(failing)], if |failing| == 0 then Attempt else EnteredBlocked;
    RecordGrows(s.log, GateRound(failing));
    RecordGrows(mid, e);
    AllOkGrows(c, s.life.codes, s.log, GateRound(failing));
    AllOkGrows(c, s.life.codes, mid, e);
  }

  lemma SpawnRecorded(c: Config, s: Svc, a: SpawnAct)
    requires RecordInv(c, s) && ProcInv(s.pc, s.life) && CanSpawn(s, a)
    ensures RecordInv(c, StepSpawn(c, s, a))
  {
    if !a.ok { ClassifyRecorded(c, s, None, 127); }
  }

  lemma RunRecorded(c: Config, s: Svc, a: RunAct)
    requires RecordInv(c, s) && CanRun(s, a)
    ensures RecordInv(c, StepRun(s, a))
  {
    RecordGrows(s.log, BecameReady);
    AllOkGrows(c, s.life.codes, s.log, BecameReady);
  }

  lemma JudgeRecorded(c: Config, s: Svc, a: JudgeAct)
    requires RecordInv(c, s) && ProcInv(s.pc, s.life) && CanJudge(c, s, a)
    ensures RecordInv(c, StepJudge(c, s, a))
  {
    match a
    case Drained => ClassifyRecorded(c, s.(ready := false), s.life.proc, s.life.codes[s.life.proc.value]);
    case JudgeAnswer(failing) =>
      var s' := StepJudge(c, s, a);
      RecordGrows(s.log, GateRound(failing));
      AllOkGrows(c, s.life.codes, s.log, GateRound(failing));
      JudgedKeeps(c, s.life, s.pc, s.log + [GateRound(failing)], s'.log[|s.log| + 1], s');
    case BackoffOver =>
  }

  lemma DepRecorded(c: Config, s: Svc, a: DepAct)
    requires RecordInv(c, s) && CanDep(c, s, a)
    ensures RecordInv(c, StepDep(c, s, a))
  {
  }

  /** Steps that the record does not show. */
  predicate Unseen(s: Svc, s': Svc) {
    && s'.log == s.log && s'.pc == s.pc && s'.ready == s.ready && (s.stopping ==> s'.stopping)
    && s'.life.codes == s.life.codes && s'.life.next == s.life.next && s'.life.proc == s.life.proc
  }

  lemma Unrecorded(c: Config, s: Svc, s': Svc)
    requires RecordInv(c, s) && Unseen(s, s')
    ensures RecordInv(c, s')
  {
  }

  lemma CallUnseen(s: Svc, a: CallAct)
    requires CanCall(s, a)
    ensures Unseen(s, StepCall(s, a))
  {
  }

  lemma WatchUnrecorded(c: Config, s: Svc, a: WatchAct)
    requires RecordInv(c, s) && CanWatch(s, a)
    ensures RecordInv(c, StepWatch(s, a))
  {
    Unrecorded(c, s, StepWatch(s, a));
  }

  lemma CallUnrecorded(c: Config, s: Svc, a: CallAct)
    requires RecordInv(c, s) && CanCall(s, a)
    ensures RecordInv(c, StepCall(s, a))
  {
    CallUnseen(s, a);
    Unrecorded(c, s, StepCall(s, a));
  }

  lemma RecordStep(c: Config, s: Svc, a: Action)
    requires RecordInv(c, s) && ProcInv(s.pc, s.life) && Enabled(c, s, a)
    ensures RecordInv(c, Step(c, s, a))
  {
    match a
    case Env(e) => EnvRecorded(c, s, e);
    case Gate(g) => GateRecorded(c, s, g);
    case Spawn(p) => SpawnRecorded(c, s, p);
    case Run(r) => RunRecorded(c, s, r);
    case Judge(j) => JudgeRecorded(c, s, j);
    case Dep(d) => DepRecorded(c, s, d);
    case Watch(w) => WatchUnrecorded(c, s, w);
    case Call(k) => CallUnrecorded(c, s, k);
  }

  /** Over every run: an exit code in `no_restart_exit` ends the service, unless a flag excuses the exit or the service
      is stopping, and no other does; an exit is charged, or put down to a failing gate, only after a gate round that
      passed, or failed; each process started is judged once, in order, and by the code it exited with; and each
      attempt is judged before the next one. */
  lemma {:induction false} RecordIsExact(c: Config, acts: seq<Action>)
    requires After(c, acts).Some?
    ensures RecordInv(c, After(c, acts).value)
  {
    if |acts| == 0 {
    } else {
      RecordIsExact(c, acts[..|acts| - 1]);
      NoStrayKill(c, acts[..|acts| - 1]);
      RecordStep(c, After(c, acts[..|acts| - 1]).value, acts[|acts| - 1]);
    }
  }
}
