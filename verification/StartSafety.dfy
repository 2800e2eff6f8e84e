/** Dependency-ordered start over every run of the instance: `after` means ready, transitively. */
module StartSafety {
  import opened Wrappers
  import opened ServiceModel
  import opened ServiceKills
  import opened SupervisorModel

  predicate Tried(log: seq<Event>) {
    Attempt in log
  }

  predicate WasReady(log: seq<Event>) {
    BecameReady in log
  }

  predicate AfterAttempt(pc: Pc) {
    pc.Rendering? || pc.Forking? || InIncarnation(pc) || pc.Judging? || pc.BackingOff?
  }

  /** Still in the dependency waits at the head of `run`, or gone without ever attempting a spawn. */
  predicate Waiting(s: Svc) {
    s.pc.Depending? || (s.pc.Ended? && !Tried(s.log))
  }

  predicate ShapeInv(s: Svc) {
    && (AfterAttempt(s.pc) ==> Tried(s.log))
    && (WasReady(s.log) ==> Tried(s.log))
    && (s.pc.Depending? ==> !Tried(s.log))
    && (s.ready ==> WasReady(s.log))
  }

  /** A step that takes no part in the dependency waits. */
  predicate Advances(s: Svc, s': Svc) {
    && ShapeInv(s') && s.log <= s'.log
    && (s'.pc.Depending? ==> s'.pc == s.pc)
    && (Waiting(s) ==> Waiting(s'))
  }

  lemma AdvancesClassify(c: Config, s: Svc, inc: Option<Inc>, code: int)
    requires ShapeInv(s) && Tried(s.log)
    ensures Advances(s, Classify(c, s, inc, code))
  {
  }

  lemma AdvancesGate(c: Config, s: Svc, a: GateAct)
    requires ShapeInv(s) && CanGate(c, s, a)
    ensures Advances(s, StepGate(c, s, a))
  {
    if a.GateAnswer? {
      var mid := s.(log := s.log + [GateRound(a.failing)]);
      assert Advances(s, mid);
    }
  }

  lemma AdvancesSpawn(c: Config, s: Svc, a: SpawnAct)
    requires ShapeInv(s) && CanSpawn(s, a)
    ensures Advances(s, StepSpawn(c, s, a))
  {
    AdvancesClassify(c, s, None, 127);
  }

  lemma AdvancesRun(s: Svc, a: RunAct)
    requires ShapeInv(s) && CanRun(s, a)
    ensures Advances(s, StepRun(s, a))
  {
  }

  lemma AdvancesJudge(c: Config, s: Svc, a: JudgeAct)
    requires ShapeInv(s) && CanJudge(c, s, a)
    ensures Advances(s, StepJudge(c, s, a))
  {
    match a
    case Drained => AdvancesClassify(c, s.(ready := false), s.life.proc, s.life.codes[s.life.proc.value]);
    case JudgeAnswer(failing) =>
      var mid := s.(log := s.log + [GateRound(failing)]);
      assert Advances(s, mid);
    case BackoffOver =>
  }

  lemma AdvancesWatch(s: Svc, a: WatchAct)
    requires ShapeInv(s) && CanWatch(s, a)
    ensures Advances(s, StepWatch(s, a))
  {
  }

  lemma AdvancesCall(s: Svc, a: CallAct)
    requires ShapeInv(s) && CanCall(s, a)
    ensures Advances(s, StepCall(s, a))
  {
  }

  lemma AdvancesStep(c: Config, s: Svc, a: Action)
    requires ShapeInv(s) && Enabled(c, s, a) && !a.Dep?
    ensures Advances(s, Step(c, s, a))
  {
    match a
    case Env(_) =>
    case Gate(g) => AdvancesGate(c, s, g);
    case Spawn(p) => AdvancesSpawn(c, s, p);
    case Run(r) => AdvancesRun(s, r);
    case Judge(j) => AdvancesJudge(c, s, j);
    case Watch(w) => AdvancesWatch(s, w);
    case Call(k) => AdvancesCall(s, k);
  }

  // ---- The whole instance --------------------------------------------------------------------------

  predicate ReadyOnce(svcs: map<Name, Svc>, d: Name) {
    d in svcs && WasReady(svcs[d].log)
  }

  /** The dependencies already waited for, and the one a wake-up has arrived for, have been ready. */
  predicate NodeOk(c: Config, svcs: map<Name, Svc>, s: Svc) {
    && ShapeInv(s)
    && (s.pc.Depending? ==>
          && s.pc.k < |c.after|
          && (forall j | 0 <= j < s.pc.k :: ReadyOnce(svcs, c.after[j]))
          && (s.pc.woken ==> ReadyOnce(svcs, c.after[s.pc.k])))
    && (!Waiting(s) ==> forall j | 0 <= j < |c.after| :: ReadyOnce(svcs, c.after[j]))
  }

  predicate StartInv(u: Setup, svcs: map<Name, Svc>) {
    svcs.Keys == u.services.Keys && forall n | n in svcs :: NodeOk(u.services[n], svcs, svcs[n])
  }

  predicate LogsGrow(svcs: map<Name, Svc>, svcs': map<Name, Svc>) {
    svcs.Keys == svcs'.Keys && forall n | n in svcs :: svcs[n].log <= svcs'[n].log
  }

  lemma NodeGrows(c: Config, svcs: map<Name, Svc>, svcs': map<Name, Svc>, s: Svc)
    requires NodeOk(c, svcs, s) && LogsGrow(svcs, svcs')
    ensures NodeOk(c, svcs', s)
  {
    forall d | ReadyOnce(svcs, d) ensures ReadyOnce(svcs', d) {
      assert svcs[d].log <= svcs'[d].log;
    }
  }

  lemma OnePut(u: Setup, svcs: map<Name, Svc>, n: Name, s': Svc)
    requires StartInv(u, svcs) && n in svcs && svcs[n].log <= s'.log && NodeOk(u.services[n], svcs, s')
    ensures StartInv(u, svcs[n := s'])
  {
    var svcs' := svcs[n := s'];
    forall m | m in svcs' ensures NodeOk(u.services[m], svcs', svcs'[m]) {
      NodeGrows(u.services[m], svcs, svcs', svcs'[m]);
    }
  }

  lemma OneAdvances(u: Setup, svcs: map<Name, Svc>, n: Name, s': Svc)
    requires StartInv(u, svcs) && n in svcs && Advances(svcs[n], s')
    ensures StartInv(u, svcs[n := s'])
  {
    OnePut(u, svcs, n, s');
  }

  /** One dependency wait: a wait that starts while the dependency is ready is over at once. */
  lemma DependsOk(c: Config, svcs: map<Name, Svc>, s: Svc, a: DepAct)
    requires NodeOk(c, svcs, s) && CanDep(c, s, a) && !a.DepWake?
    requires a.DepGo? && a.nextSet && s.pc.k + 1 < |c.after| ==> ReadyOnce(svcs, c.after[s.pc.k + 1])
    ensures NodeOk(c, svcs, StepDep(c, s, a))
  {
  }

  lemma OneDepends(u: Setup, svcs: map<Name, Svc>, n: Name, a: DepAct)
    requires ValidSetup(u) && StartInv(u, svcs) && n in svcs && CanDep(u.services[n], svcs[n], a)
    requires IsLocal(u, svcs, n, Dep(a))
    ensures StartInv(u, svcs[n := StepDep(u.services[n], svcs[n], a)])
  {
    var c, s := u.services[n], svcs[n];
    if a.DepGo? && s.pc.k + 1 < |c.after| {
      var d := c.after[s.pc.k + 1];
      assert d in svcs && NodeOk(u.services[d], svcs, svcs[d]);
    }
    DependsOk(c, svcs, s, a);
    OnePut(u, svcs, n, StepDep(c, s, a));
  }

  lemma WakeStart(u: Setup, svcs: map<Name, Svc>, d: Name)
    requires StartInv(u, svcs) && ReadyOnce(svcs, d)
    ensures StartInv(u, WakeAll(u, svcs, d))
  {
    var svcs' := WakeAll(u, svcs, d);
    assert LogsGrow(svcs, svcs');
    forall m | m in svcs' ensures NodeOk(u.services[m], svcs', svcs'[m]) {
      NodeGrows(u.services[m], svcs, svcs', svcs[m]);
    }
  }

  lemma LocalStart(u: Setup, y: Sys, n: Name, a: Action)
    requires ValidSetup(u) && StartInv(u, y.svcs) && Can(u, y, Local(n, a))
    ensures StartInv(u, SysStep(u, y, Local(n, a)).svcs)
  {
    var s' := Step(u.services[n], y.svcs[n], a);
    if a.Dep? {
      OneDepends(u, y.svcs, n, a.dep);
    } else {
      AdvancesStep(u.services[n], y.svcs[n], a);
      OneAdvances(u, y.svcs, n, s');
    }
    if a == Run(ProbeEnds(true)) {
      assert s'.log == y.svcs[n].log + [BecameReady];
      WakeStart(u, y.svcs[n := s'], n);
    }
  }

  lemma RenderStart(u: Setup, y: Sys, n: Name, ok: bool)
    requires StartInv(u, y.svcs) && n in u.services && n in y.svcs && y.svcs[n].pc.Rendering?
    ensures StartInv(u, Render(u, y, n, ok))
  {
    AdvancesSpawn(u.services[n], y.svcs[n], RenderDone(ok));
    OneAdvances(u, y.svcs, n, StepSpawn(u.services[n], y.svcs[n], RenderDone(ok)));
  }

  lemma RestartStart(u: Setup, svcs: map<Name, Svc>, n: Name)
    requires StartInv(u, svcs) && n in svcs
    ensures StartInv(u, svcs[n := Restart(svcs[n])])
  {
    AdvancesCall(svcs[n], BounceCall);
    OneAdvances(u, svcs, n, Restart(svcs[n]));
  }

  lemma TickedStart(u: Setup, svcs: map<Name, Svc>, d: real)
    requires StartInv(u, svcs)
    ensures StartInv(u, Ticked(svcs, d))
  {
    forall n | n in svcs ensures NodeOk(u.services[n], Ticked(svcs, d), Ticked(svcs, d)[n]) {
      NodeGrows(u.services[n], svcs, Ticked(svcs, d), svcs[n]);
    }
  }

  lemma StartStep(u: Setup, y: Sys, x: SysAct)
    requires ValidSetup(u) && StartInv(u, y.svcs) && Can(u, y, x)
    ensures StartInv(u, SysStep(u, y, x).svcs)
  {
    match x
    case Local(n, a) => LocalStart(u, y, n, a);
    case Resolve(n, _, _, ok, _) => RenderStart(u, y, n, ok);
    case ResolveFails(n) => RenderStart(u, y, n, false);
    case RenderPlain(n, ok) => RenderStart(u, y, n, ok);
    case RunTask(i) => RestartStart(u, y.svcs, y.tasks[i].target);
    case Pass(d) => TickedStart(u, y.svcs, d);
  }

  lemma {:induction false} StartInvAlways(u: Setup, xs: seq<SysAct>)
    requires ValidSetup(u) && SysAfter(u, xs).Some?
    ensures StartInv(u, SysAfter(u, xs).value.svcs)
  {
    if |xs| == 0 {
    } else {
      StartInvAlways(u, xs[..|xs| - 1]);
      StartStep(u, SysAfter(u, xs[..|xs| - 1]).value, xs[|xs| - 1]);
    }
  }

  /** `p` leads from a service along `after` edges. */
  predicate DependencyPath(u: Setup, p: seq<Name>) {
    |p| > 0 && (forall i | 0 <= i < |p| :: p[i] in u.services) &&
    forall i | 0 <= i < |p| - 1 :: p[i + 1] in u.services[p[i]].after
  }

  /** Over every run: once a service has attempted a spawn, every service it depends on, directly or
      through others, has been ready. */
  lemma {:induction false} NoSpawnBeforeItsDependencies(u: Setup, xs: seq<SysAct>, p: seq<Name>)
    requires ValidSetup(u) && SysAfter(u, xs).Some? && DependencyPath(u, p) && |p| > 1
    requires var svcs := SysAfter(u, xs).value.svcs; p[0] in svcs && Tried(svcs[p[0]].log)
    ensures ReadyOnce(SysAfter(u, xs).value.svcs, p[|p| - 1])
    decreases |p|
  {
    StartInvAlways(u, xs);
    var svcs := SysAfter(u, xs).value.svcs;
    assert NodeOk(u.services[p[0]], svcs, svcs[p[0]]);
    assert p[1] in u.services[p[0]].after;
    var j :| 0 <= j < |u.services[p[0]].after| && u.services[p[0]].after[j] == p[1];
    assert ReadyOnce(svcs, p[1]);
    if |p| == 2 {
    } else {
      assert NodeOk(u.services[p[1]], svcs, svcs[p[1]]);
      assert DependencyPath(u, p[1..]) by {
        forall i | 0 <= i < |p[1..]| - 1 ensures p[1..][i + 1] in u.services[p[1..][i]].after {
          assert p[i + 1 + 1] in u.services[p[i + 1]].after;
        }
      }
      NoSpawnBeforeItsDependencies(u, xs, p[1..]);
    }
  }
}
