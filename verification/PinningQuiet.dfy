/** When every pending bounce has run: which groups can be split across releases, and which cannot. */
module PinningQuiet {
  import opened Wrappers
  import opened ServiceModel
  import opened ServiceKills
  import opened ServiceFairness
  import opened ServiceLeak
  import opened SupervisorModel
  import opened Pinning
  import opened PinningRecords

  /** Nothing is under way: no bounce is pending, no spawn window is open, nobody was told to stop. */
  ghost predicate Quiescent(y: Sys) {
    y.tasks == [] && forall n | n in y.svcs :: !y.svcs[n].stopping && !y.svcs[n].pc.Forking? && !LiveTold(y.svcs[n])
  }

  /** In a quiescent state a live service lags behind a pinned sibling exactly when it missed a bounce. */
  lemma LagsExactlyWhenDropped(u: Setup, xs: seq<SysAct>, n: Name)
    requires u.uses.Keys == u.services.Keys && SysAfter(u, xs).Some?
    requires var y := SysAfter(u, xs).value; Quiescent(y) && n in y.svcs && Live(y.svcs[n].life)
    ensures var y := SysAfter(u, xs).value; Stale(u, y.rec, n) <==> n in y.dropped
  {
    EveryStaleServiceIsCovered(u, xs);
    assert Covered(u, SysAfter(u, xs).value, n);
  }

  // ---- When nothing is missed ----------------------------------------------------------------------

  /** No bounce runs while its target is in the window between its render and its process. */
  ghost predicate Aligned(u: Setup, xs: seq<SysAct>) {
    forall k: nat | k < |xs| && xs[k].RunTask? && SysAfter(u, xs[..k]).Some? ::
      var y := SysAfter(u, xs[..k]).value;
      Can(u, y, xs[k]) ==> !y.svcs[y.tasks[xs[k].i].target].pc.Forking?
  }

  ghost predicate NoContinuousGates(u: Setup) {
    forall n | n in u.services :: !u.services[n].continuous
  }

  ghost predicate AllQuiet(svcs: map<Name, Svc>) {
    forall n | n in svcs :: NoGateWatch(svcs[n])
  }

  lemma OneQuiet(c: Config, svcs: map<Name, Svc>, n: Name, a: Action)
    requires AllQuiet(svcs) && n in svcs && !c.continuous && Enabled(c, svcs[n], a)
    ensures AllQuiet(svcs[n := Step(c, svcs[n], a)])
  {
    QuietStep(c, svcs[n], a);
  }

  lemma QuietSys(u: Setup, y: Sys, x: SysAct)
    requires NoContinuousGates(u) && AllQuiet(y.svcs) && Can(u, y, x) && y.svcs.Keys == u.services.Keys
    ensures AllQuiet(SysStep(u, y, x).svcs)
  {
    match x
    case Local(n, a) => OneQuiet(u.services[n], y.svcs, n, a);
    case Resolve(n, _, _, rendered, _) => OneQuiet(u.services[n], y.svcs, n, Spawn(RenderDone(rendered)));
    case ResolveFails(n) => OneQuiet(u.services[n], y.svcs, n, Spawn(RenderDone(false)));
    case RenderPlain(n, ok) => OneQuiet(u.services[n], y.svcs, n, Spawn(RenderDone(ok)));
    case RunTask(i) =>
      var n := y.tasks[i].target;
      OneQuiet(u.services[n], y.svcs, n, Call(BounceCall));
    case Pass(_) =>
  }

  /** Outside the window, and with no flag surviving a gate stop, a bounce is never without effect. */
  lemma NoMiss(s: Svc)
    requires FairInv(s) && NoGateWatch(s) && !s.pc.Forking?
    ensures !Misses(s)
  {
  }

  lemma AlignedPrefix(u: Setup, xs: seq<SysAct>)
    requires |xs| > 0 && Aligned(u, xs)
    ensures Aligned(u, xs[..|xs| - 1])
  {
    var before := xs[..|xs| - 1];
    forall k: nat | k < |before| && before[k].RunTask? && SysAfter(u, before[..k]).Some?
      ensures var z := SysAfter(u, before[..k]).value;
              Can(u, z, before[k]) ==> !z.svcs[z.tasks[before[k].i].target].pc.Forking?
    {
      assert before[..k] == xs[..k] && before[k] == xs[k];
    }
  }

  lemma DropsNothing(u: Setup, y: Sys, x: SysAct)
    requires AllFair(y.svcs) && AllQuiet(y.svcs) && y.dropped == {} && Can(u, y, x)
    requires x.RunTask? ==> !y.svcs[y.tasks[x.i].target].pc.Forking?
    ensures SysStep(u, y, x).dropped == {}
  {
    if x.RunTask? { NoMiss(y.svcs[y.tasks[x.i].target]); }
  }

  lemma {:induction false} NothingIsDropped(u: Setup, xs: seq<SysAct>)
    requires u.uses.Keys == u.services.Keys && SysAfter(u, xs).Some?
    requires NoContinuousGates(u) && Aligned(u, xs)
    ensures var y := SysAfter(u, xs).value; AllQuiet(y.svcs) && y.dropped == {}
  {
    if |xs| == 0 {
    } else {
      var before := xs[..|xs| - 1];
      var y, x := SysAfter(u, before).value, xs[|xs| - 1];
      AlignedPrefix(u, xs);
      NothingIsDropped(u, before);
      EveryStaleServiceIsCovered(u, before);
      QuietSys(u, y, x);
      DropsNothing(u, y, x);
    }
  }

  /** A service that runs, or is about to, and uses a resolver has recorded its generations. */
  ghost predicate Rendered(u: Setup, y: Sys) {
    forall n | n in y.svcs && n in u.uses && u.uses[n] != {} && (y.svcs[n].pc.Forking? || Live(y.svcs[n].life)) :: n in y.rec
  }

  lemma TameRendered(u: Setup, y: Sys, n: Name, s': Svc, y': Sys)
    requires Rendered(u, y) && n in y.svcs && Tame(y.svcs[n], s')
    requires y'.svcs == y.svcs[n := s'] && y.rec.Keys <= y'.rec.Keys
    ensures Rendered(u, y')
  {
  }

  lemma LocalRendered(u: Setup, y: Sys, n: Name, a: Action)
    requires Rendered(u, y) && Can(u, y, Local(n, a))
    ensures Rendered(u, SysStep(u, y, Local(n, a)))
  {
    TameStep(u.services[n], y.svcs[n], a);
    TameRendered(u, y, n, Step(u.services[n], y.svcs[n], a), y.(svcs := y.svcs[n := Step(u.services[n], y.svcs[n], a)]));
  }

  lemma RenderRendered(u: Setup, y: Sys, n: Name, ok: bool, y': Sys)
    requires Rendered(u, y) && AllApart(y.svcs) && n in u.services && n in u.uses && n in y.svcs && y.svcs[n].pc.Rendering?
    requires y'.svcs == Render(u, y, n, ok) && y.rec.Keys <= y'.rec.Keys
    requires ok && u.uses[n] != {} ==> n in y'.rec
    ensures Rendered(u, y')
  {
    ClassifyStays(u.services[n], y.svcs[n], None, 127);
  }

  lemma RenderedStep(u: Setup, y: Sys, x: SysAct)
    requires AllApart(y.svcs) && Rendered(u, y) && Can(u, y, x)
    ensures Rendered(u, SysStep(u, y, x))
  {
    var y' := SysStep(u, y, x);
    match x
    case Local(n, a) => LocalRendered(u, y, n, a);
    case Resolve(n, r, changed, ok, _) =>
      var got := y.got[n][r := Gen(Resolved(y.gen, r, changed), r)];
      if got.Keys == u.uses[n] { RenderRendered(u, y, n, ok, y'); } else { TameRendered(u, y, n, y.svcs[n], y'); }
    case ResolveFails(n) => RenderRendered(u, y, n, false, y');
    case RenderPlain(n, ok) => RenderRendered(u, y, n, ok, y');
    case RunTask(i) => TameRendered(u, y, y.tasks[i].target, Restart(y.svcs[y.tasks[i].target]), y');
    case Pass(_) =>
  }

  lemma {:induction false} LiveServicesRendered(u: Setup, xs: seq<SysAct>)
    requires u.uses.Keys == u.services.Keys && SysAfter(u, xs).Some?
    ensures Rendered(u, SysAfter(u, xs).value)
  {
    if |xs| == 0 {
    } else {
      var y, x := SysAfter(u, xs[..|xs| - 1]).value, xs[|xs| - 1];
      LiveServicesRendered(u, xs[..|xs| - 1]);
      EveryStaleServiceIsCovered(u, xs[..|xs| - 1]);
      FairApart(y.svcs);
      RenderedStep(u, y, x);
    }
  }

  /** Two live members of a pinned group that are recorded on what they were given were given the same generation. */
  lemma SameGeneration(u: Setup, xs: seq<SysAct>, n: Name, m: Name, r: Resolver)
    requires u.uses.Keys == u.services.Keys && SysAfter(u, xs).Some?
    requires NoContinuousGates(u) && Aligned(u, xs) && Quiescent(SysAfter(u, xs).value)
    requires n in u.services && m in u.services && r in u.uses[n] && r in u.uses[m] && r in u.pinned
    requires var y := SysAfter(u, xs).value;
             && n in y.svcs && m in y.svcs && Live(y.svcs[n].life) && Live(y.svcs[m].life)
             && Agrees(y, n) && Agrees(y, m)
    ensures var y := SysAfter(u, xs).value;
            && n in y.used && m in y.used && r in y.used[n] && r in y.used[m]
            && y.used[n][r] == y.used[m][r]
  {
    var y := SysAfter(u, xs).value;
    EveryStaleServiceIsCovered(u, xs);
    LiveServicesRendered(u, xs);
    NothingIsDropped(u, xs);
    LagsExactlyWhenDropped(u, xs, n);
    LagsExactlyWhenDropped(u, xs, m);
    assert Entry(u.uses[n], y.used[n], y.rec[n], y.gen) && Entry(u.uses[m], y.used[m], y.rec[m], y.gen);
    assert !StaleOn(u, y.rec, n, m, r) && !StaleOn(u, y.rec, m, n, r);
  }

  /** If no resolver of the two services can move between its resolution and its recording, with no continuous gates
      and no bounce inside a spawn window, no quiescent state runs a pinned group on two releases: what the live
      members were given is the same generation. */
  lemma NoSplitGroup(u: Setup, xs: seq<SysAct>, n: Name, m: Name, r: Resolver)
    requires u.uses.Keys == u.services.Keys && SysAfter(u, xs).Some?
    requires NoContinuousGates(u) && Aligned(u, xs) && Quiescent(SysAfter(u, xs).value)
    requires n in u.services && m in u.services && Steady(u, n) && Steady(u, m)
    requires r in u.uses[n] && r in u.uses[m] && r in u.pinned
    requires var y := SysAfter(u, xs).value;
             && n in y.svcs && m in y.svcs && Live(y.svcs[n].life) && Live(y.svcs[m].life)
    ensures var y := SysAfter(u, xs).value;
            && n in y.used && m in y.used && r in y.used[n] && r in y.used[m]
            && y.used[n][r] == y.used[m][r]
  {
    SteadyAgrees(u, xs, n);
    SteadyAgrees(u, xs, m);
    SameGeneration(u, xs, n, m, r);
  }
}
