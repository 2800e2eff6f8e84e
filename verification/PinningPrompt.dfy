/** Which services can be recorded on another generation than they were given, once a cached resolution is taken for
    what it is: no await at all. Here the half that nobody else can. */
module PinningPrompt {
  import opened Names
  import opened Wrappers
  import opened ServiceModel
  import opened ServiceKills
  import opened ServiceFairness
  import opened SupervisorModel
  import opened Pinning
  import opened PinningQuiet
  import opened PinningRecords
  import opened StartSafety

  // ---- The condition -----------------------------------------------------------------------------------

  /** `n` waits for `d`, directly or through others. */
  ghost predicate WaitsFor(u: Setup, n: Name, d: Name) {
    exists p :: DependencyPath(u, p) && |p| > 1 && p[0] == n && p[|p| - 1] == d
  }

  /** `q` has been resolved before `n` first renders, because something `n` waits for uses it. */
  ghost predicate ResolvedBefore(u: Setup, n: Name, q: Resolver) {
    exists d :: WaitsFor(u, n, d) && d in u.uses && q in u.uses[d]
  }

  /** `m` can move `r` while `n`, which has resolved it, waits for `q`. */
  ghost predicate Overtakes(u: Setup, n: Name, m: Name, r: Resolver, q: Resolver)
    requires n in u.uses
  {
    && m in u.uses && m != n && r in u.uses[n] && r in u.uses[m] && r !in u.once && q in u.uses[n] && Less(r, q)
    && (q in u.once ==> !ResolvedBefore(u, n, q) && !ResolvedBefore(u, m, q) && !WaitsFor(u, m, n))
  }

  /** Some resolver of `n` that is run at every spawn and that another service uses as well comes before one that is
      also run at every spawn, or that can still be unresolved when `n` renders and that other service can, too. */
  ghost predicate Overtakable(u: Setup, n: Name)
    requires n in u.uses
  {
    exists m, r, q :: Overtakes(u, n, m, r, q)
  }

  // ---- Who has run has resolved ------------------------------------------------------------------------

  predicate Began(s: Svc) {
    s.pc.Forking? || s.life.proc.Some? || WasReady(s.log)
  }

  predicate Known(u: Setup, gen: Gens, n: Name) {
    n in u.uses && forall q | q in u.uses[n] :: Gen(gen, q) > 0
  }

  predicate GotKnown(got: map<Name, Gens>, gen: Gens) {
    forall n | n in got :: AllKnown(got[n], gen)
  }

  predicate AllKnown(got: Gens, gen: Gens) {
    forall q | q in got :: Gen(gen, q) > 0
  }

  ghost predicate KnownInv(u: Setup, y: Sys) {
    && (forall n {:trigger Known(u, y.gen, n)} | n in y.svcs && Began(y.svcs[n]) :: Known(u, y.gen, n))
    && GotKnown(y.got, y.gen)
  }

  lemma BeganBefore(c: Config, s: Svc, a: Action)
    requires FairInv(s) && Enabled(c, s, a) && Began(Step(c, s, a)) && a != Spawn(RenderDone(true))
    ensures Began(s)
  {
    match a
    case Gate(g) => BeganGate(c, s, g);
    case Judge(j) => BeganJudge(c, s, j);
    case Spawn(p) => ClassifyStays(c, s, None, 127);
    case Watch(w) => BeganWatch(s, w);
    case Call(k) => BeganCall(s, k);
    case _ =>
  }

  lemma BeganGate(c: Config, s: Svc, a: GateAct)
    requires CanGate(c, s, a) && Began(StepGate(c, s, a))
    ensures Began(s)
  {
  }

  lemma BeganJudge(c: Config, s: Svc, a: JudgeAct)
    requires FairInv(s) && CanJudge(c, s, a) && Began(StepJudge(c, s, a))
    ensures Began(s)
  {
  }

  lemma BeganWatch(s: Svc, a: WatchAct)
    requires CanWatch(s, a) && Began(StepWatch(s, a))
    ensures Began(s)
  {
  }

  lemma BeganCall(s: Svc, a: CallAct)
    requires CanCall(s, a) && Began(StepCall(s, a))
    ensures Began(s)
  {
  }

  lemma KnownGrows(u: Setup, gen: Gens, r: Resolver, changed: bool, n: Name)
    requires Known(u, gen, n)
    ensures Known(u, Resolved(gen, r, changed), n)
  {
  }

  lemma LocalKnown(u: Setup, y: Sys, n: Name, a: Action)
    requires AllFair(y.svcs) && KnownInv(u, y) && Can(u, y, Local(n, a))
    ensures KnownInv(u, SysStep(u, y, Local(n, a)))
  {
    var y' := SysStep(u, y, Local(n, a));
    forall k | k in y'.svcs && Began(y'.svcs[k]) ensures Known(u, y'.gen, k) {
      if k == n && Began(Step(u.services[n], y.svcs[n], a)) { BeganBefore(u.services[n], y.svcs[n], a); }
      assert Began(y.svcs[k]);
    }
  }

  lemma ResolvedIsKnown(u: Setup, gen: Gens, r: Resolver, changed: bool, q: Resolver)
    requires MayMove(u, gen, r, changed) && (q == r || Gen(gen, q) > 0)
    ensures Gen(Resolved(gen, r, changed), q) > 0
  {
  }

  lemma GotKnownGrows(u: Setup, got: map<Name, Gens>, gen: Gens, n: Name, r: Resolver, changed: bool)
    requires GotKnown(got, gen) && n in got && MayMove(u, gen, r, changed)
    ensures var gen' := Resolved(gen, r, changed); var more: Gens := got[n][r := Gen(gen', r)];
            GotKnown(got[n := map[]], gen') && GotKnown(got[n := more], gen')
  {
    var gen' := Resolved(gen, r, changed);
    forall k | k in got ensures AllKnown(got[k], gen') && AllKnown(got[n][r := Gen(gen', r)], gen') {
      assert AllKnown(got[k], gen) && AllKnown(got[n], gen);
      forall q | q in got[k] || q in got[n] || q == r ensures Gen(gen', q) > 0 {
        ResolvedIsKnown(u, gen, r, changed, q);
      }
    }
  }

  lemma ResolveKnown(u: Setup, y: Sys, x: SysAct)
    requires AllFair(y.svcs) && KnownInv(u, y) && x.Resolve? && Can(u, y, x)
    ensures KnownInv(u, SysStep(u, y, x))
  {
    var y' := SysStep(u, y, x);
    GotKnownGrows(u, y.got, y.gen, x.n, x.r, x.changed);
    forall k | k in y'.svcs && Began(y'.svcs[k]) ensures Known(u, y'.gen, k) {
      if Began(y.svcs[k]) {
        KnownGrows(u, y.gen, x.r, x.changed, k);
      } else {
        BeginsKnown(u, y, x, k);
      }
    }
  }

  /** A service begins by completing a render. */
  lemma BeginsKnown(u: Setup, y: Sys, x: SysAct, k: Name)
    requires KnownInv(u, y) && x.Resolve? && Can(u, y, x) && k in y.svcs && !Began(y.svcs[k])
    requires Began(SysStep(u, y, x).svcs[k])
    ensures Known(u, SysStep(u, y, x).gen, k)
  {
    ClassifyStays(u.services[x.n], y.svcs[x.n], None, 127);
    assert y.got[x.n].Keys + {x.r} == u.uses[x.n] && AllKnown(y.got[x.n], y.gen);
    forall q | q in u.uses[x.n] ensures Gen(SysStep(u, y, x).gen, q) > 0 {
      ResolvedIsKnown(u, y.gen, x.r, x.changed, q);
    }
  }

  lemma FailKnown(u: Setup, y: Sys, n: Name, ok: bool, y': Sys)
    requires AllFair(y.svcs) && KnownInv(u, y)
    requires n in u.services && n in u.uses && n in y.svcs && y.svcs[n].pc.Rendering? && (ok ==> u.uses[n] == {})
    requires y'.svcs == Render(u, y, n, ok) && y'.gen == y.gen
    requires y'.got == y.got || (n in y.got && y'.got == y.got[n := map[]])
    ensures KnownInv(u, y')
  {
    forall k | k in y'.svcs && Began(y'.svcs[k]) ensures Known(u, y'.gen, k) {
      if !ok { ClassifyStays(u.services[n], y.svcs[n], None, 127); }
      if k != n || !ok { assert Began(y.svcs[k]); }
    }
  }

  lemma KnownStep(u: Setup, y: Sys, x: SysAct)
    requires AllFair(y.svcs) && KnownInv(u, y) && Can(u, y, x)
    ensures KnownInv(u, SysStep(u, y, x))
  {
    var y' := SysStep(u, y, x);
    match x
    case Local(n, a) => LocalKnown(u, y, n, a);
    case Resolve(_, _, _, _, _) => ResolveKnown(u, y, x);
    case ResolveFails(n) => FailKnown(u, y, n, false, y');
    case RenderPlain(n, ok) => FailKnown(u, y, n, ok, y');
    case RunTask(i) =>
      forall k | k in y'.svcs && Began(y'.svcs[k]) ensures Known(u, y'.gen, k) { assert Began(y.svcs[k]); }
    case Pass(d) =>
      forall k | k in y'.svcs && Began(y'.svcs[k]) ensures Known(u, y'.gen, k) { assert Began(y.svcs[k]); }
  }

  lemma {:induction false} AlwaysKnown(u: Setup, xs: seq<SysAct>)
    requires u.uses.Keys == u.services.Keys && SysAfter(u, xs).Some?
    ensures KnownInv(u, SysAfter(u, xs).value)
  {
    if |xs| == 0 {
    } else {
      AlwaysKnown(u, xs[..|xs| - 1]);
      EveryStaleServiceIsCovered(u, xs[..|xs| - 1]);
      KnownStep(u, SysAfter(u, xs[..|xs| - 1]).value, xs[|xs| - 1]);
    }
  }

  /** What a rendering service waits for has been resolved. */
  lemma WaitedForIsKnown(u: Setup, xs: seq<SysAct>, y: Sys, n: Name, d: Name)
    requires ValidSetup(u) && SysAfter(u, xs) == Some(y) && n in y.svcs && y.svcs[n].pc.Rendering? && WaitsFor(u, n, d)
    ensures Known(u, y.gen, d)
  {
    var p :| DependencyPath(u, p) && |p| > 1 && p[0] == n && p[|p| - 1] == d;
    StartInvAlways(u, xs);
    assert NodeOk(u.services[n], y.svcs, y.svcs[n]);
    NoSpawnBeforeItsDependencies(u, xs, p);
    AlwaysKnown(u, xs);
    assert Began(y.svcs[d]);
  }

  // ---- A render under way ------------------------------------------------------------------------------

  /** Part of a render: resolved in order, and still current. */
  predicate Fits(uses: set<Resolver>, got: Gens, gen: Gens) {
    && got.Keys <= uses && (forall p, q | p in got && q in uses && q !in got :: Less(p, q))
    && forall p | p in got :: got[p] == Gen(gen, p) > 0
  }

  /** What the render under way has resolved so far is still current, and not yet everything. */
  predicate Current(u: Setup, y: Sys, n: Name)
    requires n in u.uses
  {
    && n in y.got && n in y.svcs && Fits(u.uses[n], y.got[n], y.gen)
    && (y.got[n] != map[] ==> y.svcs[n].pc.Rendering? && y.got[n].Keys != u.uses[n])
    && Agrees(y, n)
  }

  lemma FitsMore(u: Setup, uses: set<Resolver>, got: Gens, gen: Gens, r: Resolver, changed: bool)
    requires Fits(uses, got, gen) && NextUp(uses, got, r) && MayMove(u, gen, r, changed)
    ensures var gen' := Resolved(gen, r, changed); var more: Gens := got[r := Gen(gen', r)];
            Fits(uses, more, gen') && more.Keys == got.Keys + {r}
  {
  }

  lemma FitsStill(uses: set<Resolver>, got: Gens, gen: Gens, r: Resolver, changed: bool)
    requires Fits(uses, got, gen) && (r in got ==> !changed)
    ensures Fits(uses, got, Resolved(gen, r, changed))
  {
  }

  lemma FitsAll(u: Setup, n: Name, got: Gens, gen: Gens)
    requires n in u.uses && Fits(u.uses[n], got, gen) && got.Keys == u.uses[n]
    ensures got == Recorded(u, gen, n)
  {
  }

  lemma NextExists(uses: set<Resolver>, got: Gens) returns (q: Resolver)
    requires got.Keys <= uses && got.Keys != uses
    ensures NextUp(uses, got, q)
  {
    var x :| x in uses && x !in got;
    assert x in uses - got.Keys;
    q := LeastIn(uses - got.Keys);
  }

  /** What `n` or `m` waited for has resolved `q`, or `n` itself has. */
  lemma ResolvedByThen(u: Setup, xs: seq<SysAct>, y: Sys, n: Name, m: Name, q: Resolver)
    requires ValidSetup(u) && SysAfter(u, xs) == Some(y) && n in u.uses && q in u.uses[n]
    requires n in y.svcs && m in y.svcs && y.svcs[n].pc.Rendering? && y.svcs[m].pc.Rendering?
    requires ResolvedBefore(u, n, q) || ResolvedBefore(u, m, q) || WaitsFor(u, m, n)
    ensures Gen(y.gen, q) > 0
  {
    if ResolvedBefore(u, n, q) {
      var d :| WaitsFor(u, n, d) && d in u.uses && q in u.uses[d];
      WaitedForIsKnown(u, xs, y, n, d);
    } else if ResolvedBefore(u, m, q) {
      var d :| WaitsFor(u, m, d) && d in u.uses && q in u.uses[d];
      WaitedForIsKnown(u, xs, y, m, d);
    } else {
      WaitedForIsKnown(u, xs, y, m, n);
    }
  }

  /** Nobody moves what `n` has resolved. */
  lemma NobodyMoves(u: Setup, xs: seq<SysAct>, y: Sys, x: SysAct, n: Name)
    requires ValidSetup(u) && SysAfter(u, xs) == Some(y) && n in u.uses && !Overtakable(u, n) && Current(u, y, n)
    requires x.Resolve? && Can(u, y, x) && x.n != n && x.r in y.got[n] && (NobodyReady(u, y) || FromCache(u, y, x))
    ensures !x.changed
  {
    if x.changed {
      var q := NextExists(u.uses[n], y.got[n]);
      assert !Ready(u, y, n, q) && Less(x.r, q);
      assert !Overtakes(u, n, x.n, x.r, q);
      ResolvedByThen(u, xs, y, n, x.n, q);
    }
  }

  lemma OwnCurrent(u: Setup, y: Sys, x: SysAct, n: Name)
    requires n in u.uses && Current(u, y, n) && x.Resolve? && x.n == n && Can(u, y, x)
    ensures Current(u, SysStep(u, y, x), n)
  {
    FitsMore(u, u.uses[n], y.got[n], y.gen, x.r, x.changed);
    var gen := Resolved(y.gen, x.r, x.changed);
    var got: Gens := y.got[n][x.r := Gen(gen, x.r)];
    if got.Keys == u.uses[n] { FitsAll(u, n, got, gen); }
  }

  /** Nothing that concerns `n` has changed. */
  lemma CurrentStays(u: Setup, y: Sys, y': Sys, n: Name)
    requires n in u.uses && Current(u, y, n) && n in y'.svcs && n in y'.got && y'.got[n] == y.got[n]
    requires y.svcs[n].pc.Rendering? ==> y'.svcs[n].pc.Rendering?
    requires Fits(u.uses[n], y.got[n], y'.gen)
    requires n in y'.rec ==>
               n in y.rec && y'.rec[n] == y.rec[n] && n in y'.used && (n in y.used ==> y'.used[n] == y.used[n])
    ensures Current(u, y', n)
  {
  }

  lemma OtherCurrent(u: Setup, xs: seq<SysAct>, y: Sys, x: SysAct, n: Name)
    requires ValidSetup(u) && SysAfter(u, xs) == Some(y) && n in u.uses && !Overtakable(u, n) && Current(u, y, n)
    requires x.Resolve? && Can(u, y, x) && x.n != n && (NobodyReady(u, y) || FromCache(u, y, x))
    ensures Current(u, SysStep(u, y, x), n)
  {
    if x.r in y.got[n] { NobodyMoves(u, xs, y, x, n); }
    FitsStill(u.uses[n], y.got[n], y.gen, x.r, x.changed);
    CurrentStays(u, y, SysStep(u, y, x), n);
  }

  lemma StaysRendering(c: Config, s: Svc, a: Action)
    requires FairInv(s) && s.pc.Rendering? && Enabled(c, s, a) && (a.Spawn? ==> !a.spawn.RenderDone?)
    ensures Step(c, s, a).pc.Rendering?
  {
  }

  lemma LocalCurrent(u: Setup, y: Sys, m: Name, a: Action, n: Name)
    requires n in u.uses && Current(u, y, n) && AllFair(y.svcs) && Can(u, y, Local(m, a))
    ensures Current(u, SysStep(u, y, Local(m, a)), n)
  {
    if m == n && y.svcs[n].pc.Rendering? { StaysRendering(u.services[n], y.svcs[n], a); }
    LocalFrame(u, y, m, a, n);
    CurrentStays(u, y, SysStep(u, y, Local(m, a)), n);
  }

  lemma LocalFrame(u: Setup, y: Sys, m: Name, a: Action, n: Name)
    requires Can(u, y, Local(m, a)) && n in y.svcs
    ensures var y' := SysStep(u, y, Local(m, a));
            && y'.got == y.got && y'.gen == y.gen && y'.rec == y.rec && y'.used == y.used && n in y'.svcs
            && y'.svcs[n].pc.Rendering? == (if n == m then Step(u.services[m], y.svcs[m], a) else y.svcs[n]).pc.Rendering?
  {
  }

  lemma FailsCurrent(u: Setup, y: Sys, m: Name, n: Name)
    requires n in u.uses && Current(u, y, n) && Can(u, y, ResolveFails(m))
    ensures Current(u, SysStep(u, y, ResolveFails(m)), n)
  {
    if m != n { CurrentStays(u, y, SysStep(u, y, ResolveFails(m)), n); }
  }

  lemma PlainCurrent(u: Setup, y: Sys, m: Name, ok: bool, n: Name)
    requires n in u.uses && Current(u, y, n) && Can(u, y, RenderPlain(m, ok))
    ensures Current(u, SysStep(u, y, RenderPlain(m, ok)), n)
  {
    if m != n { CurrentStays(u, y, SysStep(u, y, RenderPlain(m, ok)), n); }
  }

  lemma TaskCurrent(u: Setup, y: Sys, i: nat, n: Name)
    requires n in u.uses && Current(u, y, n) && Can(u, y, RunTask(i))
    ensures Current(u, SysStep(u, y, RunTask(i)), n)
  {
    CurrentStays(u, y, SysStep(u, y, RunTask(i)), n);
  }

  lemma StepCurrent(u: Setup, xs: seq<SysAct>, y: Sys, x: SysAct, n: Name)
    requires ValidSetup(u) && SysAfter(u, xs) == Some(y) && n in u.uses && !Overtakable(u, n) && Current(u, y, n)
    requires AllFair(y.svcs) && Can(u, y, x) && (NobodyReady(u, y) || FromCache(u, y, x))
    ensures Current(u, SysStep(u, y, x), n)
  {
    match x
    case Local(m, a) => LocalCurrent(u, y, m, a, n);
    case Resolve(m, _, _, _, _) =>
      if m == n { OwnCurrent(u, y, x, n); } else { OtherCurrent(u, xs, y, x, n); }
    case ResolveFails(m) => FailsCurrent(u, y, m, n);
    case RenderPlain(m, ok) => PlainCurrent(u, y, m, ok, n);
    case RunTask(i) => TaskCurrent(u, y, i, n);
    case Pass(_) => CurrentStays(u, y, SysStep(u, y, x), n);
  }

  /** A service that nobody can overtake is always recorded on exactly what it was given. */
  lemma {:induction false} NotOvertakenAgrees(u: Setup, xs: seq<SysAct>, n: Name)
    requires ValidSetup(u) && n in u.uses && !Overtakable(u, n) && SysAfter(u, xs).Some? && Prompt(u, xs)
    ensures Current(u, SysAfter(u, xs).value, n)
  {
    if |xs| == 0 {
    } else {
      var before := xs[..|xs| - 1];
      NotOvertakenAgrees(u, before, n);
      EveryStaleServiceIsCovered(u, before);
      StepCurrent(u, before, SysAfter(u, before).value, xs[|xs| - 1], n);
    }
  }

  /** A service that is steady in every run is one nobody can overtake. */
  lemma SteadyIsNotOvertaken(u: Setup, n: Name)
    requires n in u.uses && Steady(u, n)
    ensures !Overtakable(u, n)
  {
    forall m, r, q ensures !Overtakes(u, n, m, r, q) {
      if Overtakes(u, n, m, r, q) {
        assert !OnlyUser(u, n, r);
        LessAsymmetric(r, q);
      }
    }
  }

  /** In prompt runs, with no continuous gates and no bounce inside a spawn window, no quiescent state runs a pinned
      group on two releases, as far as its members cannot be overtaken. */
  lemma NoSplitUnlessOvertaken(u: Setup, xs: seq<SysAct>, n: Name, m: Name, r: Resolver)
    requires ValidSetup(u) && SysAfter(u, xs).Some? && Prompt(u, xs)
    requires NoContinuousGates(u) && Aligned(u, xs) && Quiescent(SysAfter(u, xs).value)
    requires n in u.services && m in u.services && !Overtakable(u, n) && !Overtakable(u, m)
    requires r in u.uses[n] && r in u.uses[m] && r in u.pinned
    requires var y := SysAfter(u, xs).value;
             && n in y.svcs && m in y.svcs && Live(y.svcs[n].life) && Live(y.svcs[m].life)
    ensures var y := SysAfter(u, xs).value;
            && n in y.used && m in y.used && r in y.used[n] && r in y.used[m]
            && y.used[n][r] == y.used[m][r]
  {
    NotOvertakenAgrees(u, xs, n);
    NotOvertakenAgrees(u, xs, m);
    SameGeneration(u, xs, n, m, r);
  }
}
