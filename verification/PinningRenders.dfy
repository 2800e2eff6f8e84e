/** Renders as prompt runs of the instance: any render can go on, as far as any of its resolvers or to its end. */
module PinningRenders {
  import opened Names
  import opened Wrappers
  import opened ServiceModel
  import opened SupervisorModel
  import opened Pinning
  import opened PinningSplits

  // ---- Any render can go on ----------------------------------------------------------------------------

  lemma {:induction false} Listed<T>(s: set<T>) returns (q: seq<T>)
    ensures forall x :: x in q <==> x in s
    ensures forall i, j | 0 <= i < j < |q| :: q[i] != q[j]
  {
    if s == {} {
      q := [];
    } else {
      var x :| x in s;
      var rest := Listed(s - {x});
      q := rest + [x];
    }
  }

  /** Whatever is recorded, the bounces of one call can be listed. */
  lemma WaveExists(u: Setup, rec: map<Name, Gens>, n: Name, gens: Gens) returns (wave: seq<Task>)
    ensures IsWave(u, rec, n, gens, wave)
  {
    var s := set m, r | m in rec.Keys && r in gens.Keys && NeedsBounce(u, rec, n, gens, Task(m, r)) :: Task(m, r);
    wave := Listed(s);
    forall t ensures t in wave <==> NeedsBounce(u, rec, n, gens, t) {
      if NeedsBounce(u, rec, n, gens, t) { assert t == Task(t.target, t.resolver) && t in s; }
    }
  }

  // ---- Prompt runs -------------------------------------------------------------------------------------

  /** A prompt run that leads to this state. */
  ghost predicate Ran(u: Setup, xs: seq<SysAct>, y: Sys) {
    SysAfter(u, xs) == Some(y) && Prompt(u, xs)
  }

  lemma PromptDo(u: Setup, xs: seq<SysAct>, y: Sys, x: SysAct) returns (xs': seq<SysAct>, y': Sys)
    requires Ran(u, xs, y) && Can(u, y, x) && (NobodyReady(u, y) || FromCache(u, y, x))
    ensures Ran(u, xs', y') && y' == SysStep(u, y, x)
  {
    xs', y' := xs + [x], SysStep(u, y, x);
    assert xs'[..|xs|] == xs;
  }

  predicate InRender(u: Setup, y: Sys, n: Name) {
    n in u.services && n in u.uses && n in y.svcs && n in y.got && y.svcs[n].pc.Rendering?
  }

  /** `k` waits for `q`, which is being run. */
  predicate Stuck(u: Setup, y: Sys, k: Name, q: Resolver) {
    InRender(u, y, k) && NextUp(u.uses[k], y.got[k], q) && !Served(u, y, q)
  }

  /** Nobody but `n` renders, and `k`, which waits for `q` if it is another. */
  ghost predicate Alone(u: Setup, y: Sys, n: Name, k: Name, q: Resolver) {
    && (forall j {:trigger y.svcs[j]} | j in y.svcs && j != n && j != k :: !y.svcs[j].pc.Rendering?)
    && (k != n && k in y.svcs && y.svcs[k].pc.Rendering? ==> Stuck(u, y, k, q))
  }

  lemma OneNext(uses: set<Resolver>, got: Gens, r: Resolver, q: Resolver)
    requires NextUp(uses, got, r) && NextUp(uses, got, q)
    ensures r == q
  {
    if r != q { LessAsymmetric(r, q); }
  }

  /** If `n` does not render, or waits for a resolver itself, the cache answers nobody. */
  lemma NobodyElse(u: Setup, y: Sys, n: Name, k: Name, q: Resolver)
    requires Alone(u, y, n, k, q)
    requires n in y.svcs && y.svcs[n].pc.Rendering? ==> exists x :: Stuck(u, y, n, x)
    ensures NobodyReady(u, y)
  {
    forall j, r ensures !Ready(u, y, j, r) {
      if Ready(u, y, j, r) && j == n {
        var x :| Stuck(u, y, n, x);
        OneNext(u.uses[n], y.got[n], r, x);
      } else if Ready(u, y, j, r) && j == k {
        OneNext(u.uses[k], y.got[k], r, q);
      }
    }
  }

  lemma LocalDo(u: Setup, xs: seq<SysAct>, y: Sys, n: Name, a: Action, k: Name, q: Resolver)
      returns (xs': seq<SysAct>, y': Sys)
    requires Ran(u, xs, y) && Can(u, y, Local(n, a)) && Alone(u, y, n, k, q) && !y.svcs[n].pc.Rendering?
    ensures Ran(u, xs', y') && y' == SysStep(u, y, Local(n, a))
  {
    NobodyElse(u, y, n, k, q);
    xs', y' := PromptDo(u, xs, y, Local(n, a));
  }

  /** Nothing but the service `n` has changed. */
  predicate Only(y: Sys, y': Sys, n: Name) {
    n in y.svcs && n in y'.svcs && y' == y.(svcs := y.svcs[n := y'.svcs[n]])
  }

  lemma OnlyOn(a: Sys, b: Sys, c: Sys, n: Name)
    requires Only(a, b, n) && Only(b, c, n)
    ensures Only(a, c, n)
  {
    assert b.svcs[n := c.svcs[n]] == a.svcs[n := c.svcs[n]];
  }

  lemma AloneOnly(u: Setup, y: Sys, y': Sys, n: Name, k: Name, q: Resolver)
    requires Alone(u, y, n, k, q) && Only(y, y', n)
    ensures Alone(u, y', n, k, q)
  {
    if k != n && k in y'.svcs && y'.svcs[k].pc.Rendering? { assert Stuck(u, y, k, q); }
  }

  // ---- Resolving ---------------------------------------------------------------------------------------

  /** The resolver has neither run nor moved, and no time has passed. */
  predicate SameAt(y: Sys, y': Sys, q: Resolver) {
    && Gen(y'.gen, q) == Gen(y.gen, q) && y'.clock == y.clock && (q in y'.stamps <==> q in y.stamps)
    && (q in y.stamps ==> y'.stamps[q] == y.stamps[q])
  }

  /** At most these have. */
  ghost predicate SameOff(y: Sys, y': Sys, s: set<Resolver>) {
    forall x {:trigger SameAt(y, y', x)} | x !in s :: SameAt(y, y', x)
  }

  lemma SameOffOn(a: Sys, b: Sys, c: Sys, x: Resolver, s: set<Resolver>)
    requires SameOff(a, b, {x}) && x in s && SameOff(b, c, s)
    ensures SameOff(a, c, s)
  {
    forall q | q !in s ensures SameAt(a, c, q) { assert SameAt(a, b, q) && SameAt(b, c, q); }
  }

  function Below(uses: set<Resolver>, r: Resolver): set<Resolver> {
    set x | x in uses && Less(x, r)
  }

  lemma ServedSame(u: Setup, y: Sys, y': Sys, q: Resolver)
    requires SameAt(y, y', q)
    ensures Served(u, y', q) == Served(u, y, q)
  {
  }

  /** While `n` resolves: everybody else is where they were, and no generation falls. */
  ghost predicate Meanwhile(y: Sys, y': Sys, n: Name) {
    && y'.svcs.Keys == y.svcs.Keys && y'.got.Keys == y.got.Keys && y'.clock == y.clock
    && (forall m | m != n && m in y.svcs :: m in y'.svcs && y'.svcs[m] == y.svcs[m])
    && (forall m | m != n && m in y.got :: m in y'.got && y'.got[m] == y.got[m])
    && forall r :: Gen(y.gen, r) <= Gen(y'.gen, r)
  }

  lemma MeanwhileOn(a: Sys, b: Sys, c: Sys, n: Name)
    requires Meanwhile(a, b, n) && Meanwhile(b, c, n)
    ensures Meanwhile(a, c, n)
  {
    forall r ensures Gen(a.gen, r) <= Gen(c.gen, r) { assert Gen(a.gen, r) <= Gen(b.gen, r) <= Gen(c.gen, r); }
  }

  lemma AloneStays(u: Setup, y: Sys, y': Sys, n: Name, k: Name, q: Resolver)
    requires Alone(u, y, n, k, q) && Meanwhile(y, y', n) && (k != n ==> SameAt(y, y', q))
    ensures Alone(u, y', n, k, q)
  {
    forall j | j in y'.svcs && j != n && j != k ensures !y'.svcs[j].pc.Rendering? { assert y'.svcs[j] == y.svcs[j]; }
    if k != n && k in y'.svcs && y'.svcs[k].pc.Rendering? {
      assert Stuck(u, y, k, q);
      ServedSame(u, y, y', q);
    }
  }

  /** `n` has resolved some more. */
  predicate Further(y: Sys, y': Sys, n: Name) {
    n in y.got && n in y'.got && n in y.svcs && n in y'.svcs && y'.svcs[n] == y.svcs[n] &&
    forall r | r in y.got[n] :: r in y'.got[n] && y'.got[n][r] == y.got[n][r]
  }

  /** How a resolution of `r` may come out. */
  predicate Outcome(u: Setup, y: Sys, r: Resolver, changed: bool) {
    MayMove(u, y.gen, r, changed) && (Served(u, y, r) ==> !changed)
  }

  lemma ResolveIsPrompt(u: Setup, y: Sys, n: Name, r: Resolver, changed: bool, ok: bool, wave: seq<Task>, k: Name,
                        q: Resolver)
    requires InRender(u, y, n) && NextUp(u.uses[n], y.got[n], r) && Alone(u, y, n, k, q)
    ensures NobodyReady(u, y) || FromCache(u, y, Resolve(n, r, changed, ok, wave))
  {
    if !Served(u, y, r) {
      assert Stuck(u, y, n, r);
      NobodyElse(u, y, n, k, q);
    }
  }

  lemma OneShape(u: Setup, y: Sys, n: Name, r: Resolver, changed: bool)
    requires InRender(u, y, n) && NextUp(u.uses[n], y.got[n], r) && Outcome(u, y, r, changed)
    requires y.got[n].Keys + {r} != u.uses[n]
    ensures Can(u, y, Resolve(n, r, changed, true, []))
    ensures var gen, y' := Resolved(y.gen, r, changed), SysStep(u, y, Resolve(n, r, changed, true, []));
            && y'.gen == gen && y'.got == y.got[n := Given(y.got[n], r, Gen(gen, r))]
            && y'.svcs == y.svcs && y'.clock == y.clock
            && y'.stamps == if Served(u, y, r) then y.stamps else y.stamps[r := y.clock]
  {
    assert y.got[n][r := Gen(Resolved(y.gen, r, changed), r)].Keys == y.got[n].Keys + {r};
  }

  /** One more resolution that does not complete the render. */
  lemma ResolveNext(u: Setup, xs: seq<SysAct>, y: Sys, n: Name, r: Resolver, changed: bool)
      returns (xs': seq<SysAct>, y': Sys)
    requires Ran(u, xs, y) && InRender(u, y, n) && NextUp(u.uses[n], y.got[n], r) && Outcome(u, y, r, changed)
    requires y.got[n].Keys + {r} != u.uses[n] && (NobodyReady(u, y) || Served(u, y, r))
    ensures Ran(u, xs', y') && Meanwhile(y, y', n) && InRender(u, y', n) && Further(y, y', n)
    ensures y'.gen == Resolved(y.gen, r, changed) && SameOff(y, y', {r})
    ensures y'.got[n].Keys == y.got[n].Keys + {r} && y'.got[n][r] == Gen(y'.gen, r)
    ensures y'.stamps == if Served(u, y, r) then y.stamps else y.stamps[r := y.clock]
  {
    OneShape(u, y, n, r, changed);
    xs', y' := PromptDo(u, xs, y, Resolve(n, r, changed, true, []));
  }

  /** The same while nobody else can go on. */
  lemma ResolveOne(u: Setup, xs: seq<SysAct>, y: Sys, n: Name, r: Resolver, changed: bool, k: Name, q: Resolver)
      returns (xs': seq<SysAct>, y': Sys)
    requires Ran(u, xs, y) && InRender(u, y, n) && NextUp(u.uses[n], y.got[n], r) && Outcome(u, y, r, changed)
    requires y.got[n].Keys + {r} != u.uses[n] && Alone(u, y, n, k, q) && (k == n || r != q)
    ensures Ran(u, xs', y') && Meanwhile(y, y', n) && InRender(u, y', n) && Further(y, y', n)
    ensures y'.gen == Resolved(y.gen, r, changed) && Alone(u, y', n, k, q) && SameOff(y, y', {r})
    ensures y'.got[n].Keys == y.got[n].Keys + {r} && y'.got[n][r] == Gen(y'.gen, r)
  {
    ResolveIsPrompt(u, y, n, r, changed, true, [], k, q);
    xs', y' := ResolveNext(u, xs, y, n, r, changed);
    assert k != n ==> SameAt(y, y', q);
    AloneStays(u, y, y', n, k, q);
  }

  /** The render of `n` is done: what it had resolved before is part of what it was given. */
  ghost predicate Completed(u: Setup, y: Sys, y': Sys, n: Name)
    requires n in u.uses && n in y.svcs && n in y.got
  {
    && n in y'.used && n in y'.rec && y'.rec[n] == Recorded(u, y'.gen, n)
    && (forall p | p in y.got[n] :: p in y'.used[n] && y'.used[n][p] == y.got[n][p])
    && n in y'.svcs && y'.svcs[n] == y.svcs[n].(pc := Forking) && n in y'.got && y'.got[n] == map[]
  }

  lemma LastShape(u: Setup, y: Sys, n: Name, r: Resolver, changed: bool, ok: bool, wave: seq<Task>)
    requires InRender(u, y, n) && NextUp(u.uses[n], y.got[n], r)
    requires Outcome(u, y, r, changed) && y.got[n].Keys + {r} == u.uses[n]
    requires IsWave(u, y.rec, n, Recorded(u, Resolved(y.gen, r, changed), n), wave)
    ensures Can(u, y, Resolve(n, r, changed, ok, wave))
    ensures var gen, y' := Resolved(y.gen, r, changed), SysStep(u, y, Resolve(n, r, changed, ok, wave));
            && y'.gen == gen && y'.got == y.got[n := map[]] && y'.used == y.used[n := Given(y.got[n], r, Gen(gen, r))]
            && y'.rec == y.rec[n := Recorded(u, gen, n)] && y'.svcs == Render(u, y, n, ok) && y'.clock == y.clock
            && y'.stamps == if Served(u, y, r) then y.stamps else y.stamps[r := y.clock]
  {
    assert y.got[n][r := Gen(Resolved(y.gen, r, changed), r)].Keys == y.got[n].Keys + {r};
  }

  lemma LastEffects(u: Setup, y: Sys, y': Sys, n: Name, r: Resolver, changed: bool)
    requires InRender(u, y, n) && NextUp(u.uses[n], y.got[n], r) && y.got[n].Keys + {r} == u.uses[n]
    requires y'.gen == Resolved(y.gen, r, changed) && y'.got == y.got[n := map[]] && y'.clock == y.clock
    requires y'.used == y.used[n := Given(y.got[n], r, Gen(y'.gen, r))] && y'.rec == y.rec[n := Recorded(u, y'.gen, n)]
    requires y'.svcs == Render(u, y, n, true)
    ensures Meanwhile(y, y', n) && Completed(u, y, y', n)
  {
  }

  lemma OthersAreSame(u: Setup, y: Sys, y': Sys, r: Resolver, changed: bool)
    requires y'.gen == Resolved(y.gen, r, changed) && y'.clock == y.clock
    requires y'.stamps == if Served(u, y, r) then y.stamps else y.stamps[r := y.clock]
    ensures SameOff(y, y', {r})
  {
  }

  /** The last resolution of a render. */
  lemma ResolveLast(u: Setup, xs: seq<SysAct>, y: Sys, n: Name, r: Resolver, changed: bool)
      returns (xs': seq<SysAct>, y': Sys)
    requires Ran(u, xs, y) && InRender(u, y, n) && NextUp(u.uses[n], y.got[n], r) && Outcome(u, y, r, changed)
    requires y.got[n].Keys + {r} == u.uses[n] && (NobodyReady(u, y) || Served(u, y, r))
    ensures Ran(u, xs', y') && Meanwhile(y, y', n) && y'.gen == Resolved(y.gen, r, changed) && Completed(u, y, y', n)
    ensures SameOff(y, y', {r})
    ensures y'.stamps == if Served(u, y, r) then y.stamps else y.stamps[r := y.clock]
  {
    var wave := WaveExists(u, y.rec, n, Recorded(u, Resolved(y.gen, r, changed), n));
    LastShape(u, y, n, r, changed, true, wave);
    xs', y' := PromptDo(u, xs, y, Resolve(n, r, changed, true, wave));
    LastEffects(u, y, y', n, r, changed);
    OthersAreSame(u, y, y', r, changed);
  }

  lemma MoreLeft<T>(whole: set<T>, part: set<T>, part': set<T>, x: T)
    requires part' == part + {x} && x in whole - part
    ensures whole - part' == whole - part - {x} && |whole - part'| < |whole - part|
  {
    assert whole - part' == whole - part - {x};
  }

  /** A render can get as far as any of its resolvers. */
  lemma {:induction false} ResolveUpTo(u: Setup, xs: seq<SysAct>, y: Sys, n: Name, r: Resolver, k: Name, q: Resolver)
      returns (xs': seq<SysAct>, y': Sys)
    requires Ran(u, xs, y) && InRender(u, y, n) && y.got[n].Keys <= u.uses[n]
    requires r in u.uses[n] && r !in y.got[n] && Alone(u, y, n, k, q) && (k == n || Less(r, q))
    ensures Ran(u, xs', y') && Meanwhile(y, y', n) && InRender(u, y', n) && Further(y, y', n)
    ensures NextUp(u.uses[n], y'.got[n], r) && y'.got[n].Keys <= u.uses[n] && Alone(u, y', n, k, q)
    ensures SameOff(y, y', Below(u.uses[n], r))
    decreases |u.uses[n] - y.got[n].Keys|
  {
    assert r in u.uses[n] - y.got[n].Keys;
    var x := LeastIn(u.uses[n] - y.got[n].Keys);
    if x == r {
      xs', y' := xs, y;
    } else {
      if k != n { LessAsymmetric(r, q); }
      var mid;
      xs', mid := ResolveOne(u, xs, y, n, x, Gen(y.gen, x) == 0, k, q);
      MoreLeft(u.uses[n], y.got[n].Keys, mid.got[n].Keys, x);
      xs', y' := ResolveUpTo(u, xs', mid, n, r, k, q);
      MeanwhileOn(y, mid, y', n);
      SameOffOn(y, mid, y', x, Below(u.uses[n], r));
    }
  }

  lemma SomethingLeft<T>(part: set<T>, whole: set<T>)
    requires part <= whole && part != whole
    ensures whole - part != {}
  {
    var x :| x in whole && x !in part;
    assert x in whole - part;
  }

  lemma CompletedOn(u: Setup, y: Sys, mid: Sys, y': Sys, n: Name)
    requires n in u.uses && Further(y, mid, n) && Completed(u, mid, y', n)
    ensures Completed(u, y, y', n)
  {
  }

  /** A render can be completed; it is recorded on the generations of that moment. */
  lemma {:induction false} FinishRender(u: Setup, xs: seq<SysAct>, y: Sys, n: Name) returns (xs': seq<SysAct>, y': Sys)
    requires Ran(u, xs, y) && InRender(u, y, n) && y.got[n].Keys <= u.uses[n] && y.got[n].Keys != u.uses[n]
    requires Alone(u, y, n, n, "")
    ensures Ran(u, xs', y') && Meanwhile(y, y', n) && Completed(u, y, y', n)
    ensures SameOff(y, y', u.uses[n])
    decreases |u.uses[n] - y.got[n].Keys|
  {
    SomethingLeft(y.got[n].Keys, u.uses[n]);
    var x := LeastIn(u.uses[n] - y.got[n].Keys);
    if y.got[n].Keys + {x} == u.uses[n] {
      ResolveIsPrompt(u, y, n, x, Gen(y.gen, x) == 0, true, [], n, "");
      xs', y' := ResolveLast(u, xs, y, n, x, Gen(y.gen, x) == 0);
    } else {
      var mid;
      xs', mid := ResolveOne(u, xs, y, n, x, Gen(y.gen, x) == 0, n, "");
      MoreLeft(u.uses[n], y.got[n].Keys, mid.got[n].Keys, x);
      xs', y' := FinishRender(u, xs', mid, n);
      MeanwhileOn(y, mid, y', n);
      CompletedOn(u, y, mid, y', n);
      SameOffOn(y, mid, y', x, u.uses[n]);
    }
  }

  /** A service at the top of its loop comes to its next render by itself. */
  lemma ToRender(u: Setup, xs: seq<SysAct>, y: Sys, n: Name, k: Name, q: Resolver) returns (xs': seq<SysAct>, y': Sys)
    requires Ran(u, xs, y) && n in u.services && n in y.svcs && Alone(u, y, n, k, q)
    requires y.svcs[n].pc.Top? && !y.svcs[n].stopping
    ensures Ran(u, xs', y') && Only(y, y', n)
    ensures y'.svcs[n] == y.svcs[n].(pc := Rendering, log := y'.svcs[n].log)
  {
    var mid;
    xs', mid := LocalDo(u, xs, y, n, Gate(LoopTop), k, q);
    y' := mid;
    if |u.services[n].gates| > 0 {
      AloneOnly(u, y, mid, n, k, q);
      xs', y' := LocalDo(u, xs', mid, n, Gate(GateAnswer([])), k, q);
      OnlyOn(y, mid, y', n);
    }
  }
}
