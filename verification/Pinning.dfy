/** The pinned-group guarantee of `_enforce_pinning` and `restart`, over every run of the whole instance. */
module Pinning {
  import opened Wrappers
  import opened ServiceModel
  import opened ServiceKills
  import opened ServiceFairness
  import opened SupervisorModel

  ghost predicate AllFair(svcs: map<Name, Svc>) {
    forall n | n in svcs :: FairInv(svcs[n])
  }

  ghost predicate SvcsInv(u: Setup, y: Sys) {
    y.svcs.Keys == u.services.Keys && y.got.Keys == u.services.Keys && AllFair(y.svcs)
  }

  ghost predicate AtMost(a: Gens, gen: Gens) {
    forall r | r in a :: a[r] <= Gen(gen, r)
  }

  /** Recorded generations never exceed the resolvers' own, and what a render was given never exceeds what was
      recorded for it. */
  ghost predicate Entry(uses: set<Resolver>, used: Gens, rec: Gens, gen: Gens) {
    && rec.Keys == uses && used.Keys == uses && AtMost(rec, gen)
    && forall r | r in uses :: used[r] <= rec[r]
  }

  ghost predicate GotInv(got: map<Name, Gens>, gen: Gens) {
    forall n | n in got :: AtMost(got[n], gen)
  }

  ghost predicate RecInv(u: Setup, used: map<Name, Gens>, rec: map<Name, Gens>, gen: Gens) {
    used.Keys == rec.Keys && forall n | n in rec :: n in u.uses && Entry(u.uses[n], used[n], rec[n], gen)
  }

  ghost predicate GensInv(u: Setup, y: Sys) {
    GotInv(y.got, y.gen) && RecInv(u, y.used, y.rec, y.gen)
  }

  /** A service running or starting on a release older than one a pinned sibling rendered with is about to be
      bounced, has been told to stop, is being stopped for good, or missed its bounce. */
  ghost predicate Covered(u: Setup, y: Sys, n: Name)
    requires n in y.svcs
  {
    (y.svcs[n].pc.Forking? || Live(y.svcs[n].life)) && Stale(u, y.rec, n) ==>
      Pending(y.tasks, n) || LiveTold(y.svcs[n]) || y.svcs[n].stopping || n in y.dropped
  }

  ghost predicate PinInv(u: Setup, y: Sys) {
    && (forall n | n in y.svcs :: Covered(u, y, n))
    && (forall n | n in y.dropped :: Stale(u, y.rec, n))
  }

  ghost predicate SysInv(u: Setup, y: Sys) {
    SvcsInv(u, y) && GensInv(u, y) && PinInv(u, y)
  }

  // ---- What a service's own steps can and cannot do ------------------------------------------------

  lemma TellsGrow(signals: seq<Signal>, more: seq<Signal>, k: Inc)
    requires signals <= more && Told(signals, k)
    ensures Told(more, k)
  {
    if Relaunched(signals, k) {
      var i :| 0 <= i < |signals| && signals[i].hit == Some(k) && Relaunches(signals[i].sender);
      assert more[i] == signals[i];
    } else {
      var i :| 0 <= i < |signals| && signals[i].hit == Some(k) && signals[i].sender.GateWatch?;
      assert more[i] == signals[i];
    }
  }

  /** Only a finished render opens a spawn window, a process comes to life only out of one, and neither the
      stop request nor a signal is ever taken back. */
  ghost predicate Tame(s: Svc, s': Svc) {
    && (s'.pc.Forking? ==> s.pc.Forking?)
    && (Live(s'.life) ==> s.pc.Forking? || (Live(s.life) && s'.life.proc == s.life.proc))
    && (s.stopping ==> s'.stopping)
    && s.signals <= s'.signals
  }

  lemma TameStep(c: Config, s: Svc, a: Action)
    requires Enabled(c, s, a) && a != Spawn(RenderDone(true))
    ensures Tame(s, Step(c, s, a))
  {
    match a
    case Env(e) =>
    case Dep(d) =>
    case Gate(g) => TameGate(c, s, g);
    case Spawn(p) => TameSpawn(c, s, p);
    case Run(r) =>
    case Judge(j) => TameJudge(c, s, j);
    case Watch(w) => TameWatch(s, w);
    case Call(k) => TameCall(s, k);
  }

  lemma TameGate(c: Config, s: Svc, a: GateAct)
    requires CanGate(c, s, a)
    ensures Tame(s, StepGate(c, s, a))
  {
  }

  lemma TameSpawn(c: Config, s: Svc, a: SpawnAct)
    requires CanSpawn(s, a) && a != RenderDone(true)
    ensures Tame(s, StepSpawn(c, s, a))
  {
    ClassifyStays(c, s, None, 127);
  }

  lemma TameJudge(c: Config, s: Svc, a: JudgeAct)
    requires CanJudge(c, s, a)
    ensures Tame(s, StepJudge(c, s, a))
  {
  }

  lemma TameWatch(s: Svc, a: WatchAct)
    requires CanWatch(s, a)
    ensures Tame(s, StepWatch(s, a))
  {
  }

  lemma TameCall(s: Svc, a: CallAct)
    requires CanCall(s, a)
    ensures Tame(s, StepCall(s, a))
  {
  }

  /** All the pinning argument needs from a service's own invariant. */
  predicate Apart(s: Svc) {
    (Live(s.life) ==> !s.pc.Forking? && !s.pc.Rendering?) && s.life.registered == s.life.proc
  }

  ghost predicate AllApart(svcs: map<Name, Svc>) {
    forall n | n in svcs :: Apart(svcs[n])
  }

  lemma FairApart(svcs: map<Name, Svc>)
    requires AllFair(svcs)
    ensures AllApart(svcs)
  {
  }

  lemma CoveredStays(u: Setup, y: Sys, y': Sys, n: Name)
    requires n in y.svcs && n in y'.svcs && Covered(u, y, n)
    requires Tame(y.svcs[n], y'.svcs[n]) && Apart(y.svcs[n])
    requires y'.rec == y.rec && y'.tasks == y.tasks && y.dropped <= y'.dropped
    ensures Covered(u, y', n)
  {
    if LiveTold(y.svcs[n]) { TellsGrow(y.svcs[n].signals, y'.svcs[n].signals, y.svcs[n].life.proc.value); }
  }

  // ---- The services' own invariants ----------------------------------------------------------------

  lemma OneFair(svcs: map<Name, Svc>, n: Name, s': Svc)
    requires AllFair(svcs) && FairInv(s')
    ensures AllFair(svcs[n := s'])
  {
  }

  lemma WakeFair(u: Setup, svcs: map<Name, Svc>, d: Name)
    requires AllFair(svcs)
    ensures AllFair(WakeAll(u, svcs, d))
  {
    forall n | n in svcs ensures FairInv(WakeAll(u, svcs, d)[n]) {
      if n in u.services && WakeAll(u, svcs, d)[n] != svcs[n] { FairDep(u.services[n], svcs[n], DepWake); }
    }
  }

  lemma MoveFair(c: Config, svcs: map<Name, Svc>, n: Name, a: Action)
    requires AllFair(svcs) && n in svcs && Enabled(c, svcs[n], a)
    ensures AllFair(svcs[n := Step(c, svcs[n], a)])
  {
    FairStep(c, svcs[n], a);
    OneFair(svcs, n, Step(c, svcs[n], a));
  }

  lemma LocalFair(u: Setup, y: Sys, n: Name, a: Action)
    requires AllFair(y.svcs) && Can(u, y, Local(n, a))
    ensures AllFair(SysStep(u, y, Local(n, a)).svcs)
  {
    MoveFair(u.services[n], y.svcs, n, a);
    WakeFair(u, y.svcs[n := Step(u.services[n], y.svcs[n], a)], n);
  }

  lemma RenderFair(u: Setup, y: Sys, n: Name, ok: bool)
    requires AllFair(y.svcs) && n in u.services && n in y.svcs && y.svcs[n].pc.Rendering?
    ensures AllFair(Render(u, y, n, ok))
  {
    FairSpawn(u.services[n], y.svcs[n], RenderDone(ok));
    OneFair(y.svcs, n, StepSpawn(u.services[n], y.svcs[n], RenderDone(ok)));
  }

  lemma RestartFair(svcs: map<Name, Svc>, n: Name)
    requires AllFair(svcs) && n in svcs
    ensures AllFair(svcs[n := Restart(svcs[n])])
  {
    FairCall(svcs[n], BounceCall);
    OneFair(svcs, n, Restart(svcs[n]));
  }

  lemma TickedFair(svcs: map<Name, Svc>, d: real)
    requires AllFair(svcs) && d >= 0.0
    ensures AllFair(Ticked(svcs, d))
  {
    forall n | n in svcs ensures FairInv(Ticked(svcs, d)[n]) { FairEnv(svcs[n], Tick(d)); }
  }

  lemma SvcsKeys(u: Setup, y: Sys, x: SysAct)
    requires y.svcs.Keys == u.services.Keys && y.got.Keys == u.services.Keys && Can(u, y, x)
    ensures SysStep(u, y, x).svcs.Keys == u.services.Keys && SysStep(u, y, x).got.Keys == u.services.Keys
  {
  }

  lemma SvcsStep(u: Setup, y: Sys, x: SysAct)
    requires AllFair(y.svcs) && Can(u, y, x)
    ensures AllFair(SysStep(u, y, x).svcs)
  {
    match x
    case Local(n, a) => LocalFair(u, y, n, a);
    case Resolve(n, _, _, rendered, _) => RenderFair(u, y, n, rendered);
    case ResolveFails(n) => RenderFair(u, y, n, false);
    case RenderPlain(n, ok) => RenderFair(u, y, n, ok);
    case RunTask(i) => RestartFair(y.svcs, y.tasks[i].target);
    case Pass(d) => TickedFair(y.svcs, d);
  }

  // ---- The generations -----------------------------------------------------------------------------

  lemma ResolvedGrows(gen: Gens, r: Resolver, changed: bool, q: Resolver)
    ensures Gen(gen, q) <= Gen(Resolved(gen, r, changed), q)
  {
  }

  lemma AtMostGrows(a: Gens, gen: Gens, r: Resolver, changed: bool)
    requires AtMost(a, gen)
    ensures AtMost(a, Resolved(gen, r, changed))
  {
    forall q | q in a ensures a[q] <= Gen(Resolved(gen, r, changed), q) {
      ResolvedGrows(gen, r, changed, q);
    }
  }

  /** The entry a completed resolution writes. */
  lemma EntryOk(u: Setup, before: Gens, gen: Gens, n: Name, r: Resolver)
    requires n in u.uses && r in u.uses[n] && r !in before && AtMost(before, gen)
    requires before.Keys + {r} == u.uses[n]
    ensures Entry(u.uses[n], before[r := Gen(gen, r)], Recorded(u, gen, n), gen)
  {
  }

  lemma GensGrow(u: Setup, y: Sys, r: Resolver, changed: bool)
    requires GensInv(u, y)
    ensures GensInv(u, y.(gen := Resolved(y.gen, r, changed)))
  {
    var gen := Resolved(y.gen, r, changed);
    forall k | k in y.got ensures AtMost(y.got[k], gen) { AtMostGrows(y.got[k], y.gen, r, changed); }
    forall k | k in y.rec ensures AtMost(y.rec[k], gen) { AtMostGrows(y.rec[k], y.gen, r, changed); }
  }

  lemma GotPut(got: map<Name, Gens>, gen: Gens, n: Name, g: Gens)
    requires GotInv(got, gen) && AtMost(g, gen)
    ensures GotInv(got[n := g], gen)
  {
  }

  lemma RecPut(u: Setup, used: map<Name, Gens>, rec: map<Name, Gens>, gen: Gens, n: Name, us: Gens, re: Gens)
    requires RecInv(u, used, rec, gen) && n in u.uses && Entry(u.uses[n], us, re, gen)
    ensures RecInv(u, used[n := us], rec[n := re], gen)
  {
  }

  lemma GensResolve(u: Setup, y: Sys, x: SysAct)
    requires GensInv(u, y) && x.Resolve? && Can(u, y, x)
    ensures GensInv(u, SysStep(u, y, x))
  {
    var gen := Resolved(y.gen, x.r, x.changed);
    GensGrow(u, y, x.r, x.changed);
    var got := y.got[x.n][x.r := Gen(gen, x.r)];
    assert got.Keys == y.got[x.n].Keys + {x.r};
    GotPut(y.got, gen, x.n, if got.Keys == u.uses[x.n] then map[] else got);
    if got.Keys == u.uses[x.n] {
      EntryOk(u, y.got[x.n], gen, x.n, x.r);
      RecPut(u, y.used, y.rec, gen, x.n, got, Recorded(u, gen, x.n));
    }
  }

  lemma GensStep(u: Setup, y: Sys, x: SysAct)
    requires GensInv(u, y) && Can(u, y, x)
    ensures GensInv(u, SysStep(u, y, x))
  {
    if x.Resolve? { GensResolve(u, y, x); }
    else if x.ResolveFails? { GotPut(y.got, y.gen, x.n, map[]); }
  }

  // ---- The bounces ---------------------------------------------------------------------------------

  /** Replacing one service by a tame successor. */
  lemma TamePin(u: Setup, y: Sys, n: Name, s': Svc, y': Sys)
    requires PinInv(u, y) && AllApart(y.svcs) && n in y.svcs && Tame(y.svcs[n], s')
    requires y'.svcs == y.svcs[n := s'] && y'.rec == y.rec && y'.tasks == y.tasks && y'.dropped == y.dropped
    ensures PinInv(u, y')
  {
    forall k | k in y'.svcs ensures Covered(u, y', k) {
      CoveredStays(u, y, y', k);
    }
  }

  lemma WakeTame(c: Config, s: Svc, s': Svc, d: Name)
    requires Tame(s, s')
    ensures Tame(s, Woken(c, s', d))
  {
  }

  lemma LocalPin(u: Setup, y: Sys, n: Name, a: Action)
    requires AllApart(y.svcs) && PinInv(u, y) && Can(u, y, Local(n, a))
    ensures PinInv(u, SysStep(u, y, Local(n, a)))
  {
    var y' := SysStep(u, y, Local(n, a));
    TameStep(u.services[n], y.svcs[n], a);
    forall k | k in y'.svcs ensures Covered(u, y', k) {
      var s' := if k == n then Step(u.services[n], y.svcs[n], a) else y.svcs[k];
      if k in u.services { WakeTame(u.services[k], y.svcs[k], s', n); }
      CoveredStays(u, y, y', k);
    }
  }

  /** A render that ends without an effect on the records: it failed, or needed no resolver. */
  lemma RenderPin(u: Setup, y: Sys, n: Name, ok: bool, y': Sys)
    requires AllApart(y.svcs) && GensInv(u, y) && PinInv(u, y)
    requires n in u.services && n in u.uses && n in y.svcs && y.svcs[n].pc.Rendering? && (ok ==> u.uses[n] == {})
    requires y'.svcs == Render(u, y, n, ok) && y'.rec == y.rec && y'.tasks == y.tasks && y'.dropped == y.dropped
    ensures PinInv(u, y')
  {
    var s := y.svcs[n];
    if ok {
      forall k | k in y'.svcs ensures Covered(u, y', k) {
        if k == n { assert !Stale(u, y.rec, n); } else { CoveredStays(u, y, y', k); }
      }
    } else {
      ClassifyStays(u.services[n], s, None, 127);
      TamePin(u, y, n, y'.svcs[n], y');
    }
  }

  lemma PendingAdded(tasks: seq<Task>, wave: seq<Task>, t: Task)
    requires t in wave
    ensures Pending(tasks + wave, t.target)
  {
    var i :| 0 <= i < |wave| && wave[i] == t;
    assert (tasks + wave)[|tasks| + i] == t;
  }

  lemma PendingGrows(tasks: seq<Task>, wave: seq<Task>, k: Name)
    requires Pending(tasks, k)
    ensures Pending(tasks + wave, k)
  {
    var i :| 0 <= i < |tasks| && tasks[i].target == k;
    assert (tasks + wave)[i] == tasks[i];
  }

  lemma PendingRemoved(tasks: seq<Task>, i: nat, k: Name)
    requires i < |tasks| && Pending(tasks, k) && tasks[i].target != k
    ensures Pending(tasks[..i] + tasks[i + 1..], k)
  {
    var j :| 0 <= j < |tasks| && tasks[j].target == k;
    assert (tasks[..i] + tasks[i + 1..])[if j < i then j else j - 1] == tasks[j];
  }

  /** The heart of the protocol: after `n` recorded the newest generations, whoever is stale towards it has
      a bounce pending, and whoever was stale before still is. */
  lemma RecordPins(u: Setup, rec: map<Name, Gens>, n: Name, gens: Gens, wave: seq<Task>, k: Name)
    requires IsWave(u, rec, n, gens, wave) && k != n
    requires n in rec ==> forall r | r in rec[n] :: r in gens && rec[n][r] <= gens[r]
    ensures Stale(u, rec, k) ==> Stale(u, rec[n := gens], k)
    ensures Stale(u, rec[n := gens], k) ==> Stale(u, rec, k) || exists t :: t in wave && t.target == k
  {
    if Stale(u, rec, k) {
      var m, q :| StaleOn(u, rec, k, m, q);
      assert StaleOn(u, rec[n := gens], k, m, q);
    }
    if Stale(u, rec[n := gens], k) {
      var m, q :| StaleOn(u, rec[n := gens], k, m, q);
      if m == n {
        assert NeedsBounce(u, rec, n, gens, Task(k, q));
      } else {
        assert StaleOn(u, rec, k, m, q);
      }
    }
  }

  /** Nobody has recorded anything newer than the resolvers' own generations. */
  lemma RecorderIsFresh(u: Setup, rec: map<Name, Gens>, gen: Gens, n: Name)
    requires n in u.uses && forall m | m in rec :: AtMost(rec[m], gen)
    ensures !Stale(u, rec[n := Recorded(u, gen, n)], n)
  {
    var rec' := rec[n := Recorded(u, gen, n)];
    forall m, q ensures !StaleOn(u, rec', n, m, q) {
      if m in rec' && m != n { assert AtMost(rec[m], gen); }
    }
  }

  lemma CoveredByWave(u: Setup, y: Sys, y': Sys, n: Name, gens: Gens, wave: seq<Task>, k: Name)
    requires k in y.svcs && k in y'.svcs && Covered(u, y, k) && k != n && y'.svcs[k] == y.svcs[k]
    requires y'.rec == y.rec[n := gens] && y'.tasks == y.tasks + wave && y'.dropped == y.dropped - {n}
    requires Stale(u, y'.rec, k) ==> Stale(u, y.rec, k) || exists t :: t in wave && t.target == k
    ensures Covered(u, y', k)
  {
    if exists t :: t in wave && t.target == k {
      var t :| t in wave && t.target == k;
      PendingAdded(y.tasks, wave, t);
    } else if Pending(y.tasks, k) {
      PendingGrows(y.tasks, wave, k);
    }
  }

  lemma PinPins(u: Setup, y: Sys, n: Name, gens: Gens, gen: Gens, wave: seq<Task>, rendered: bool, y': Sys)
    requires AllApart(y.svcs) && PinInv(u, y) && n in u.services && n in u.uses && n in y.svcs && y.svcs[n].pc.Rendering?
    requires gens == Recorded(u, gen, n) && IsWave(u, y.rec, n, gens, wave)
    requires forall m | m in y.rec :: AtMost(y.rec[m], gen)
    requires n in y.rec ==> y.rec[n].Keys == u.uses[n]
    requires y'.svcs == Render(u, y, n, rendered) && y'.rec == y.rec[n := gens]
    requires y'.tasks == y.tasks + wave && y'.dropped == y.dropped - {n}
    ensures PinInv(u, y')
  {
    if n in y.rec { assert AtMost(y.rec[n], gen); }
    RecorderIsFresh(u, y.rec, gen, n);
    forall k | k in y'.svcs ensures Covered(u, y', k) {
      if k != n {
        RecordPins(u, y.rec, n, gens, wave, k);
        CoveredByWave(u, y, y', n, gens, wave, k);
      }
    }
    forall k | k in y'.dropped ensures Stale(u, y'.rec, k) {
      RecordPins(u, y.rec, n, gens, wave, k);
    }
  }

  lemma ResolvePin(u: Setup, y: Sys, x: SysAct)
    requires AllApart(y.svcs) && GensInv(u, y) && PinInv(u, y) && x.Resolve? && Can(u, y, x)
    ensures PinInv(u, SysStep(u, y, x))
  {
    var y' := SysStep(u, y, x);
    assert y.got[x.n][x.r := Gen(y'.gen, x.r)].Keys == y.got[x.n].Keys + {x.r};
    if y.got[x.n].Keys + {x.r} == u.uses[x.n] {
      forall k | k in y.rec ensures AtMost(y.rec[k], y'.gen) { AtMostGrows(y.rec[k], y.gen, x.r, x.changed); }
      PinPins(u, y, x.n, Recorded(u, y'.gen, x.n), y'.gen, x.wave, x.rendered, y');
    } else {
      TamePin(u, y, x.n, y.svcs[x.n], y');
    }
  }

  /** A bounce that runs tells a live incarnation to stop, or finds it told, or is recorded as missed. */
  lemma BounceCovers(u: Setup, rec: map<Name, Gens>, s: Svc)
    requires s.life.registered == s.life.proc
    ensures var s' := Restart(s);
            && s'.pc == s.pc && s'.stopping == s.stopping && Live(s'.life) == Live(s.life)
            && (s.pc.Forking? || Live(s.life) ==> s.stopping || LiveTold(s') || Misses(s))
  {
    if !s.stopping && !s.bounce && Live(s.life) {
      ToldGrows(s.signals, Signal(Bounce, false, s.life.proc, s.life.registered), s.life.proc.value);
    }
  }

  lemma RunTaskPin(u: Setup, y: Sys, i: nat)
    requires AllApart(y.svcs) && PinInv(u, y) && Can(u, y, RunTask(i))
    ensures PinInv(u, SysStep(u, y, RunTask(i)))
  {
    var y' := SysStep(u, y, RunTask(i));
    var n := y.tasks[i].target;
    BounceCovers(u, y.rec, y.svcs[n]);
    forall k | k in y'.svcs ensures Covered(u, y', k) {
      if k != n {
        if Pending(y.tasks, k) { PendingRemoved(y.tasks, i, k); }
        assert Covered(u, y, k);
      }
    }
  }

  lemma PassPin(u: Setup, y: Sys, d: real)
    requires AllApart(y.svcs) && PinInv(u, y) && d >= 0.0
    ensures PinInv(u, SysStep(u, y, Pass(d)))
  {
    forall k | k in y.svcs ensures Covered(u, SysStep(u, y, Pass(d)), k) {
      CoveredStays(u, y, SysStep(u, y, Pass(d)), k);
    }
  }

  lemma PinStep(u: Setup, y: Sys, x: SysAct)
    requires AllApart(y.svcs) && GensInv(u, y) && PinInv(u, y) && Can(u, y, x)
    ensures PinInv(u, SysStep(u, y, x))
  {
    match x
    case Local(n, a) => LocalPin(u, y, n, a);
    case Resolve(_, _, _, _, _) => ResolvePin(u, y, x);
    case ResolveFails(n) => RenderPin(u, y, n, false, SysStep(u, y, x));
    case RenderPlain(n, ok) => RenderPin(u, y, n, ok, SysStep(u, y, x));
    case RunTask(i) => RunTaskPin(u, y, i);
    case Pass(d) => PassPin(u, y, d);
  }

  /** Over every run of the instance. */
  lemma {:induction false} EveryStaleServiceIsCovered(u: Setup, xs: seq<SysAct>)
    requires u.uses.Keys == u.services.Keys && SysAfter(u, xs).Some?
    ensures SysInv(u, SysAfter(u, xs).value)
  {
    if |xs| == 0 {
    } else {
      var y, x := SysAfter(u, xs[..|xs| - 1]).value, xs[|xs| - 1];
      EveryStaleServiceIsCovered(u, xs[..|xs| - 1]);
      SvcsKeys(u, y, x);
      SvcsStep(u, y, x);
      GensStep(u, y, x);
      FairApart(y.svcs);
      PinStep(u, y, x);
    }
  }
}
