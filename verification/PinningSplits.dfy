/** Concrete runs that end with a pinned group split across releases: why `NoSplitGroup` needs its
    hypotheses. */
module PinningSplits {
  import opened Names
  import opened Wrappers
  import opened ServiceModel
  import opened ServiceKills
  import opened ServiceFairness
  import opened SupervisorModel
  import opened PinningQuiet

  lemma SysDo(u: Setup, xs: seq<SysAct>, y: Sys, x: SysAct) returns (xs': seq<SysAct>, y': Sys)
    requires SysAfter(u, xs) == Some(y) && Can(u, y, x)
    ensures SysAfter(u, xs') == Some(y') && y' == SysStep(u, y, x)
  {
    xs', y' := xs + [x], SysStep(u, y, x);
    assert xs'[..|xs|] == xs;
  }

  /** A service with no dependencies and no gates. */
  predicate Plain(u: Setup, n: Name) {
    n in u.services && u.services[n].after == [] && u.services[n].gates == [] && !u.services[n].continuous
  }

  predicate Pair(u: Setup, a: Name, b: Name) {
    u.uses.Keys == u.services.Keys == {a, b} && a != b && Plain(u, a) && Plain(u, b)
  }

  /** Its state while its first render is under way, in the spawn window, and with its first process. */
  function AtRender(c: Config, now: real): Svc {
    Init(c).(pc := Rendering, log := [] + [Attempt], now := now)
  }

  function InWindow(c: Config, now: real): Svc {
    AtRender(c, now).(pc := Forking)
  }

  function Running(c: Config, now: real): Svc {
    AtRender(c, now).(pc := Probing, life := Forked(c, Init(c).life, false))
  }

  /** How long until the result of `r` is kept no longer. */
  function Wait(u: Setup, r: Resolver): (d: real)
    ensures d >= 0.0
  {
    if r in u.cacheSeconds && u.cacheSeconds[r] > 0.0 then u.cacheSeconds[r] else 0.0
  }

  function Given(got: Gens, r: Resolver, gen: nat): Gens {
    got[r := gen]
  }

  lemma PinShape(u: Setup, y: Sys, n: Name, r: Resolver, wave: seq<Task>, gens: Gens)
    requires n in u.services && n in u.uses && n in y.svcs && n in y.got
    requires y.svcs[n].pc.Rendering? && r in u.uses[n] && r !in y.got[n] && y.got[n].Keys + {r} == u.uses[n]
    requires MayMove(u, y.gen, r, true) && !Served(u, y, r)
    requires gens == Recorded(u, Resolved(y.gen, r, true), n) && IsWave(u, y.rec, n, gens, wave)
    ensures Can(u, y, Resolve(n, r, true, true, wave))
    ensures var y' := SysStep(u, y, Resolve(n, r, true, true, wave)); var now: nat := Gen(y.gen, r) + 1;
            && y'.gen == y.gen[r := now] && y'.got == y.got[n := map[]]
            && y'.used == y.used[n := Given(y.got[n], r, now)] && y'.rec == y.rec[n := gens]
            && y'.tasks == y.tasks + wave && y'.svcs == y.svcs[n := y.svcs[n].(pc := Forking)]
            && y'.clock == y.clock && y'.stamps == y.stamps[r := y.clock]
  {
    assert Given(y.got[n], r, Gen(y.gen, r) + 1).Keys == u.uses[n];
  }

  /** A resolution that completes `n`'s render on a new release. */
  lemma DoPin(u: Setup, xs: seq<SysAct>, y: Sys, n: Name, r: Resolver, wave: seq<Task>, gens: Gens)
      returns (xs': seq<SysAct>, y': Sys)
    requires SysAfter(u, xs) == Some(y) && n in u.services && n in u.uses && n in y.svcs && n in y.got
    requires y.svcs[n].pc.Rendering? && r in u.uses[n] && r !in y.got[n] && y.got[n].Keys + {r} == u.uses[n]
    requires MayMove(u, y.gen, r, true) && !Served(u, y, r)
    requires gens == Recorded(u, Resolved(y.gen, r, true), n) && IsWave(u, y.rec, n, gens, wave)
    ensures SysAfter(u, xs') == Some(y')
    ensures y'.gen == y.gen[r := Gen(y.gen, r) + 1] && y'.got == y.got[n := map[]]
    ensures var given: Gens := y.got[n][r := Gen(y.gen, r) + 1];
            y'.used == y.used[n := given] && y'.rec == y.rec[n := gens]
    ensures y'.tasks == y.tasks + wave && y'.svcs == y.svcs[n := y.svcs[n].(pc := Forking)]
    ensures y'.clock == y.clock && y'.stamps == y.stamps[r := y.clock]
  {
    PinShape(u, y, n, r, wave, gens);
    xs', y' := SysDo(u, xs, y, Resolve(n, r, true, true, wave));
  }

  predicate Both(y: Sys, a: Name, b: Name, s: Svc, t: Svc) {
    y.svcs.Keys == {a, b} && y.svcs[a] == s && y.svcs[b] == t
  }

  /** `a` comes to its first render at once. */
  lemma OneRender(u: Setup, a: Name, b: Name) returns (xs: seq<SysAct>, y: Sys)
    requires Pair(u, a, b)
    ensures SysAfter(u, xs) == Some(y) && y == SysInit(u).(svcs := y.svcs)
    ensures Both(y, a, b, AtRender(u.services[a], 0.0), Init(u.services[b]))
  {
    xs, y := SysDo(u, [], SysInit(u), Local(a, Gate(LoopTop)));
  }

  lemma Passes(u: Setup, xs: seq<SysAct>, y: Sys, d: real) returns (xs': seq<SysAct>, y': Sys)
    requires SysAfter(u, xs) == Some(y) && d >= 0.0
    ensures SysAfter(u, xs') == Some(y') && y' == y.(clock := y.clock + d, svcs := Ticked(y.svcs, d))
  {
    xs', y' := SysDo(u, xs, y, Pass(d));
  }

  lemma Renders(u: Setup, xs: seq<SysAct>, y: Sys, n: Name) returns (xs': seq<SysAct>, y': Sys)
    requires SysAfter(u, xs) == Some(y) && n in u.services && n in y.svcs && Plain(u, n)
    requires y.svcs[n].pc.Top? && !y.svcs[n].stopping
    ensures SysAfter(u, xs') == Some(y')
    ensures y' == y.(svcs := y.svcs[n := y.svcs[n].(pc := Rendering, log := y.svcs[n].log + [Attempt])])
  {
    xs', y' := SysDo(u, xs, y, Local(n, Gate(LoopTop)));
  }

  /** `b` comes to its own once nothing of `a`'s resolution is kept. */
  lemma LaterRender(u: Setup, a: Name, b: Name, xs: seq<SysAct>, y: Sys, s: Svc, d: real)
      returns (xs': seq<SysAct>, y': Sys)
    requires Pair(u, a, b) && SysAfter(u, xs) == Some(y) && Both(y, a, b, s, Init(u.services[b])) && d >= 0.0
    ensures SysAfter(u, xs') == Some(y') && y' == y.(clock := y.clock + d, svcs := y'.svcs)
    ensures Both(y', a, b, s.(now := s.now + d), AtRender(u.services[b], d))
  {
    xs', y' := Passes(u, xs, y, d);
    xs', y' := Renders(u, xs', y', b);
  }

  lemma DoStart(u: Setup, xs: seq<SysAct>, y: Sys, n: Name) returns (xs': seq<SysAct>, y': Sys)
    requires SysAfter(u, xs) == Some(y) && n in u.services && n in y.svcs
    requires Plain(u, n) && y.svcs[n] == InWindow(u.services[n], y.svcs[n].now)
    ensures SysAfter(u, xs') == Some(y') && y' == y.(svcs := y.svcs[n := Running(u.services[n], y.svcs[n].now)])
  {
    xs', y' := SysDo(u, xs, y, Local(n, Spawn(ForkDone(true, false))));
  }

  lemma BothStart(u: Setup, a: Name, b: Name, xs: seq<SysAct>, y: Sys, t: real) returns (xs': seq<SysAct>, y': Sys)
    requires Pair(u, a, b) && SysAfter(u, xs) == Some(y) && y.tasks == []
    requires Both(y, a, b, InWindow(u.services[a], t), InWindow(u.services[b], t))
    ensures SysAfter(u, xs') == Some(y') && y'.used == y.used && y'.rec == y.rec && y'.svcs.Keys == {a, b}
    ensures Quiescent(y') && Live(y'.svcs[a].life) && Live(y'.svcs[b].life)
  {
    xs', y' := DoStart(u, xs, y, a);
    xs', y' := DoStart(u, xs', y', b);
    assert !LiveTold(y'.svcs[a]) && !LiveTold(y'.svcs[b]);
  }

  /** The spawn window: `a` renders on release 1, `b` renders on release 2, when release 1 is no longer kept, and bounces
      `a`, the bounce runs before `a` has a process, and both start. Nobody is left to put it right. */
  lemma BounceInTheSpawnWindow(u: Setup, a: Name, b: Name, r: Resolver) returns (xs: seq<SysAct>)
    requires Pair(u, a, b) && u.uses[a] == {r} && u.uses[b] == {r} && r in u.pinned && r !in u.once
    ensures SysAfter(u, xs).Some?
    ensures var y := SysAfter(u, xs).value;
            && Quiescent(y) && a in y.svcs && b in y.svcs && Live(y.svcs[a].life) && Live(y.svcs[b].life)
            && a in y.used && b in y.used && y.used[a] == map[r := 1] && y.used[b] == map[r := 2]
  {
    var y;
    xs, y := FirstPin(u, a, b, r);
    xs, y := SecondPin(u, a, b, r, xs, y);
    xs, y := MissedBounce(u, xs, y, a);
    xs, y := BothStart(u, a, b, xs, y, Wait(u, r));
  }

  /** The result of `r` from the beginning is kept no longer. */
  predicate Lapsed(u: Setup, y: Sys, r: Resolver) {
    y.clock == Wait(u, r) && r !in u.once && r in y.stamps && y.stamps[r] == 0.0
  }

  lemma LapsedIsNotServed(u: Setup, y: Sys, r: Resolver)
    requires Lapsed(u, y, r)
    ensures !Served(u, y, r)
  {
  }

  lemma PinsFirst(u: Setup, a: Name, b: Name, r: Resolver) returns (xs: seq<SysAct>, y: Sys)
    requires Pair(u, a, b) && u.uses[a] == {r}
    ensures SysAfter(u, xs) == Some(y) && y.gen == map[r := 1] && y.tasks == [] && b in y.got && y.got[b] == map[]
    ensures y.rec == y.used == map[a := map[r := 1]] && y.clock == 0.0 && y.stamps == map[r := 0.0]
    ensures Both(y, a, b, InWindow(u.services[a], 0.0), Init(u.services[b]))
  {
    xs, y := OneRender(u, a, b);
    assert Recorded(u, Resolved(y.gen, r, true), a) == map[r := 1];
    xs, y := DoPin(u, xs, y, a, r, [], map[r := 1]);
  }

  lemma FirstPin(u: Setup, a: Name, b: Name, r: Resolver) returns (xs: seq<SysAct>, y: Sys)
    requires Pair(u, a, b) && u.uses[a] == {r} && r !in u.once
    ensures SysAfter(u, xs) == Some(y) && y.gen == map[r := 1] && y.tasks == [] && b in y.got && y.got[b] == map[]
    ensures y.rec == y.used == map[a := map[r := 1]] && Lapsed(u, y, r)
    ensures Both(y, a, b, InWindow(u.services[a], Wait(u, r)), AtRender(u.services[b], Wait(u, r)))
  {
    xs, y := PinsFirst(u, a, b, r);
    xs, y := LaterRender(u, a, b, xs, y, InWindow(u.services[a], 0.0), Wait(u, r));
  }

  lemma SecondPin(u: Setup, a: Name, b: Name, r: Resolver, xs: seq<SysAct>, y: Sys) returns (xs': seq<SysAct>, y': Sys)
    requires Pair(u, a, b) && u.uses[b] == {r} && r in u.pinned && r !in u.once && SysAfter(u, xs) == Some(y)
    requires y.gen == map[r := 1] && y.tasks == [] && b in y.got && y.got[b] == map[] && Lapsed(u, y, r)
    requires y.rec == y.used == map[a := map[r := 1]]
    requires Both(y, a, b, InWindow(u.services[a], Wait(u, r)), AtRender(u.services[b], Wait(u, r)))
    ensures SysAfter(u, xs') == Some(y') && y'.tasks == [Task(a, r)]
    ensures a in y'.used && b in y'.used && y'.used[a] == map[r := 1] && y'.used[b] == map[r := 2]
    ensures Both(y', a, b, InWindow(u.services[a], Wait(u, r)), InWindow(u.services[b], Wait(u, r)))
  {
    LapsedIsNotServed(u, y, r);
    assert forall t :: t in [Task(a, r)] <==> NeedsBounce(u, y.rec, b, map[r := 2], t);
    xs', y' := DoPin(u, xs, y, b, r, [Task(a, r)], map[r := 2]);
  }

  lemma MissedBounce(u: Setup, xs: seq<SysAct>, y: Sys, n: Name) returns (xs': seq<SysAct>, y': Sys)
    requires SysAfter(u, xs) == Some(y) && |y.tasks| == 1 && y.tasks[0].target == n
    requires n in u.services && n in y.svcs && y.svcs[n] == InWindow(u.services[n], y.svcs[n].now)
    ensures SysAfter(u, xs') == Some(y') && y' == y.(tasks := [], dropped := y'.dropped)
  {
    xs', y' := SysDo(u, xs, y, RunTask(0));
    assert y'.svcs == y.svcs;
  }

  /** Two resolvers: `a` resolves `r` on release 1 and is still resolving `q`, the later name, when `b` renders on
      release 2.
      `a` records generation 2 and runs what it was given, release 1. */
  lemma RecordedAfterResolving(u: Setup, a: Name, b: Name, r: Resolver, q: Resolver) returns (xs: seq<SysAct>)
    requires Pair(u, a, b) && Less(r, q) && u.uses[a] == {r, q} && u.uses[b] == {r} && r in u.pinned && r !in u.once
    ensures SysAfter(u, xs).Some?
    ensures var y := SysAfter(u, xs).value;
            && Quiescent(y) && a in y.svcs && b in y.svcs && Live(y.svcs[a].life) && Live(y.svcs[b].life)
            && a in y.used && b in y.used && y.used[a] == map[r := 1, q := 1] && y.used[b] == map[r := 2]
            && a in y.rec && y.rec[a] == map[r := 2, q := 1]
  {
    LessAsymmetric(r, q);
    var y;
    xs, y := OtherPins(u, a, b, r);
    var late;
    xs, late := LatePin(u, a, b, r, q, xs, y);
    FirstMoves(u, a, b, y, late, Wait(u, r));
    y := late;
    xs, y := BothStart(u, a, b, xs, y, Wait(u, r));
  }

  lemma ResolvesFirst(u: Setup, a: Name, b: Name, r: Resolver) returns (xs: seq<SysAct>, y: Sys)
    requires Pair(u, a, b) && NextUp(u.uses[a], map[], r) && u.uses[a] != {r}
    ensures SysAfter(u, xs) == Some(y) && y.gen == map[r := 1] && y.tasks == [] && a in y.got && y.got[a] == map[r := 1]
    ensures y.rec == y.used == map[] && b in y.got && y.got[b] == map[] && y.clock == 0.0 && y.stamps == map[r := 0.0]
    ensures Both(y, a, b, AtRender(u.services[a], 0.0), Init(u.services[b]))
  {
    xs, y := OneRender(u, a, b);
    xs, y := FirstOfTwo(u, xs, y, a, r);
  }

  lemma OtherPins(u: Setup, a: Name, b: Name, r: Resolver) returns (xs: seq<SysAct>, y: Sys)
    requires Pair(u, a, b) && NextUp(u.uses[a], map[], r) && u.uses[a] != {r} && u.uses[b] == {r} && r !in u.once
    ensures SysAfter(u, xs) == Some(y) && y.gen == map[r := 2] && y.tasks == [] && a in y.got && y.got[a] == map[r := 1]
    ensures y.rec == y.used == map[b := map[r := 2]]
    ensures Both(y, a, b, AtRender(u.services[a], Wait(u, r)), InWindow(u.services[b], Wait(u, r)))
  {
    xs, y := ResolvesFirst(u, a, b, r);
    xs, y := LaterRender(u, a, b, xs, y, AtRender(u.services[a], 0.0), Wait(u, r));
    LapsedIsNotServed(u, y, r);
    xs, y := OtherPinsIt(u, a, b, r, xs, y);
  }

  lemma OtherPinsIt(u: Setup, a: Name, b: Name, r: Resolver, xs: seq<SysAct>, y: Sys) returns (xs': seq<SysAct>, y': Sys)
    requires Pair(u, a, b) && u.uses[b] == {r} && r !in u.once && SysAfter(u, xs) == Some(y)
    requires y.gen == map[r := 1] && y.tasks == [] && !Served(u, y, r) && y.rec == y.used == map[]
    requires a in y.got && y.got[a] == map[r := 1] && b in y.got && y.got[b] == map[]
    requires Both(y, a, b, AtRender(u.services[a], Wait(u, r)), AtRender(u.services[b], Wait(u, r)))
    ensures SysAfter(u, xs') == Some(y') && y'.gen == map[r := 2] && y'.tasks == []
    ensures a in y'.got && y'.got[a] == map[r := 1] && y'.rec == y'.used == map[b := map[r := 2]]
    ensures Both(y', a, b, AtRender(u.services[a], Wait(u, r)), InWindow(u.services[b], Wait(u, r)))
  {
    assert Recorded(u, Resolved(y.gen, r, true), b) == map[r := 2];
    xs', y' := DoPin(u, xs, y, b, r, [], map[r := 2]);
  }

  lemma LateWave(u: Setup, a: Name, b: Name, r: Resolver, q: Resolver, gen: Gens, rec: map<Name, Gens>)
    requires a != b && r != q && a in u.uses && u.uses[a] == {r, q} && gen == map[r := 2] && rec == map[b := gen]
    ensures Gen(gen, q) == 0 && Recorded(u, Resolved(gen, q, true), a) == gen[q := 1]
    ensures IsWave(u, rec, a, gen[q := 1], [])
  {
  }

  lemma FirstMoves(u: Setup, a: Name, b: Name, y: Sys, y': Sys, t: real)
    requires Pair(u, a, b) && Both(y, a, b, AtRender(u.services[a], t), InWindow(u.services[b], t))
    requires y'.svcs == y.svcs[a := y.svcs[a].(pc := Forking)]
    ensures Both(y', a, b, InWindow(u.services[a], t), InWindow(u.services[b], t))
  {
  }

  lemma LateMaps(got: Gens, gen: Gens, r: Resolver, q: Resolver)
    requires r != q && got == map[r := 1] && gen == map[r := 2]
    ensures got.Keys + {q} == {r, q} && q !in got
    ensures got[q := 1] == map[r := 1, q := 1] && gen[q := 1] == map[r := 2, q := 1]
  {
  }

  lemma LatePin(u: Setup, a: Name, b: Name, r: Resolver, q: Resolver, xs: seq<SysAct>, y: Sys)
      returns (xs': seq<SysAct>, y': Sys)
    requires Pair(u, a, b) && r != q && u.uses[a] == {r, q} && SysAfter(u, xs) == Some(y)
    requires y.gen == map[r := 2] && y.tasks == [] && a in y.got && y.got[a] == map[r := 1]
    requires y.rec == y.used == map[b := map[r := 2]]
    requires a in y.svcs && y.svcs[a].pc.Rendering?
    ensures SysAfter(u, xs') == Some(y') && y'.tasks == []
    ensures y'.used == y.used[a := map[r := 1, q := 1]] && y'.rec == y.rec[a := map[r := 2, q := 1]]
    ensures y'.svcs == y.svcs[a := y.svcs[a].(pc := Forking)]
  {
    LateWave(u, a, b, r, q, y.gen, y.rec);
    LateMaps(y.got[a], y.gen, r, q);
    xs', y' := DoPin(u, xs, y, a, q, [], y.gen[q := 1]);
  }

  lemma FirstOfTwo(u: Setup, xs: seq<SysAct>, y: Sys, n: Name, r: Resolver) returns (xs': seq<SysAct>, y': Sys)
    requires SysAfter(u, xs) == Some(y) && n in u.services && n in u.uses && n in y.svcs && y.svcs[n].pc.Rendering?
    requires n in y.got && y.got[n] == map[] && NextUp(u.uses[n], map[], r) && u.uses[n] != {r} && y.gen == map[]
    ensures SysAfter(u, xs') == Some(y')
    ensures y' == y.(gen := map[r := 1], stamps := y.stamps[r := y.clock], got := y.got[n := map[r := 1]])
  {
    xs', y' := SysDo(u, xs, y, Resolve(n, r, true, true, []));
  }
}
