/** When what is recorded for a service can differ from what it was given: the prompt runs in which a resolver moves in
    between, and the exact condition. */
module PinningRaces {
  import opened Names
  import opened Wrappers
  import opened ServiceModel
  import opened ServiceBudget
  import opened SupervisorModel
  import opened Pinning
  import opened PinningSplits
  import opened PinningRecords
  import opened PinningPrompt
  import opened PinningRenders
  import opened PinningStarts
  import opened StartSafety
  import StartOrder

  // ---- The end of a race -------------------------------------------------------------------------------

  /** What `n` was given of `r` is older than what was recorded for it. */
  predicate Behind(y: Sys, n: Name, r: Resolver) {
    n in y.used && n in y.rec && r in y.used[n] && r in y.rec[n] && y.used[n][r] < y.rec[n][r]
  }

  predicate Rendered(u: Setup, y: Sys, m: Name) {
    InRender(u, y, m) ==> y.got[m].Keys <= u.uses[m]
  }

  lemma NoneLeft(uses: set<Resolver>, got: Gens)
    requires uses - got.Keys == {}
    ensures forall x :: !NextUp(uses, got, x)
  {
    forall x ensures !NextUp(uses, got, x) { assert x in uses - got.Keys <==> x in uses && x !in got; }
  }

  /** `m` goes on as far as the cache answers it. */
  lemma {:induction false} ServeAll(u: Setup, xs: seq<SysAct>, y: Sys, m: Name) returns (xs': seq<SysAct>, y': Sys)
    requires Ran(u, xs, y) && m in u.services && m in u.uses && Rendered(u, y, m)
    ensures Ran(u, xs', y') && Meanwhile(y, y', m) && y'.gen == y.gen && Rendered(u, y', m)
    ensures forall x :: !Ready(u, y', m, x)
    decreases if InRender(u, y, m) then |u.uses[m] - y.got[m].Keys| + 1 else 0
  {
    if !InRender(u, y, m) || u.uses[m] - y.got[m].Keys == {} {
      xs', y' := xs, y;
      if InRender(u, y, m) { NoneLeft(u.uses[m], y.got[m]); }
    } else {
      var x := LeastIn(u.uses[m] - y.got[m].Keys);
      if !Served(u, y, x) {
        xs', y' := xs, y;
        forall r ensures !Ready(u, y, m, r) { if NextUp(u.uses[m], y.got[m], r) { OneNext(u.uses[m], y.got[m], r, x); } }
      } else if y.got[m].Keys + {x} == u.uses[m] {
        xs', y' := ResolveLast(u, xs, y, m, x, false);
      } else {
        var mid;
        xs', mid := ResolveNext(u, xs, y, m, x, false);
        MoreLeft(u.uses[m], y.got[m].Keys, mid.got[m].Keys, x);
        xs', y' := ServeAll(u, xs', mid, m);
        MeanwhileOn(y, mid, y', m);
      }
    }
  }

  /** `n` has been overtaken on `r`, and nobody but `m` renders besides. */
  ghost predicate Overtaken(u: Setup, y: Sys, n: Name, m: Name, r: Resolver) {
    && n != m && InRender(u, y, n) && y.got[n].Keys <= u.uses[n] && y.got[n].Keys != u.uses[n]
    && r in y.got[n] && r in u.uses[n] && y.got[n][r] < Gen(y.gen, r)
    && m in u.services && m in u.uses && Rendered(u, y, m)
    && forall j {:trigger y.svcs[j]} | j in y.svcs && j != n && j != m :: !y.svcs[j].pc.Rendering?
  }

  lemma OvertakenServed(u: Setup, y: Sys, y': Sys, n: Name, m: Name, r: Resolver)
    requires Overtaken(u, y, n, m, r) && Meanwhile(y, y', m) && Rendered(u, y', m)
    ensures Overtaken(u, y', n, m, r)
  {
    forall j | j in y'.svcs && j != n && j != m ensures !y'.svcs[j].pc.Rendering? { assert y'.svcs[j] == y.svcs[j]; }
    assert Gen(y.gen, r) <= Gen(y'.gen, r);
  }

  lemma OvertakenFurther(u: Setup, y: Sys, y': Sys, n: Name, m: Name, r: Resolver)
    requires Overtaken(u, y, n, m, r) && Meanwhile(y, y', n) && Further(y, y', n) && InRender(u, y', n)
    requires y'.got[n].Keys <= u.uses[n] && y'.got[n].Keys != u.uses[n]
    ensures Overtaken(u, y', n, m, r)
  {
    forall j | j in y'.svcs && j != n && j != m ensures !y'.svcs[j].pc.Rendering? { assert y'.svcs[j] == y.svcs[j]; }
    assert Gen(y.gen, r) <= Gen(y'.gen, r);
  }

  lemma NobodyInTheRace(u: Setup, y: Sys, n: Name, m: Name, r: Resolver, x: Resolver)
    requires Overtaken(u, y, n, m, r) && (forall p :: !Ready(u, y, m, p)) && Stuck(u, y, n, x)
    ensures NobodyReady(u, y)
  {
    forall j, p ensures !Ready(u, y, j, p) {
      if Ready(u, y, j, p) && j == n { OneNext(u.uses[n], y.got[n], p, x); }
    }
  }

  /** `n`'s render ends, and is recorded on what it was not given. */
  lemma {:induction false} FinishBehind(u: Setup, xs: seq<SysAct>, y: Sys, n: Name, m: Name, r: Resolver)
      returns (xs': seq<SysAct>, y': Sys)
    requires Ran(u, xs, y) && Overtaken(u, y, n, m, r)
    ensures Ran(u, xs', y') && Behind(y', n, r)
    decreases |u.uses[n] - y.got[n].Keys|
  {
    var mid;
    xs', mid := ServeAll(u, xs, y, m);
    OvertakenServed(u, y, mid, n, m, r);
    SomethingLeft(mid.got[n].Keys, u.uses[n]);
    var x := LeastIn(u.uses[n] - mid.got[n].Keys);
    if !Served(u, mid, x) { NobodyInTheRace(u, mid, n, m, r, x); }
    if mid.got[n].Keys + {x} == u.uses[n] {
      xs', y' := ResolveLast(u, xs', mid, n, x, Gen(mid.gen, x) == 0);
      assert Gen(mid.gen, r) <= Gen(y'.gen, r);
    } else {
      var next;
      xs', next := ResolveNext(u, xs', mid, n, x, Gen(mid.gen, x) == 0);
      MoreLeft(u.uses[n], mid.got[n].Keys, next.got[n].Keys, x);
      OvertakenFurther(u, mid, next, n, m, r);
      xs', y' := FinishBehind(u, xs', next, n, m, r);
    }
  }

  // ---- Its middle --------------------------------------------------------------------------------------

  /** `n` has resolved `r` and waits for `q`, and `m` backs off. */
  ghost predicate Poised(u: Setup, y: Sys, n: Name, m: Name, r: Resolver, q: Resolver) {
    && n != m && Stuck(u, y, n, q) && y.got[n].Keys <= u.uses[n] && r in y.got[n] && y.got[n][r] <= Gen(y.gen, r)
    && m in u.services && m in u.uses && m in y.svcs && m in y.got && Backing(y.svcs[m]) && y.got[m] == map[]
    && Alone(u, y, m, n, q)
  }

  /** How long the cache still answers `r`. */
  function Kept(u: Setup, y: Sys, r: Resolver): (d: real)
    ensures d >= 0.0
  {
    if r in y.stamps && r in u.cacheSeconds && u.cacheSeconds[r] > y.clock - y.stamps[r]
    then u.cacheSeconds[r] - (y.clock - y.stamps[r]) else 0.0
  }

  /** How long the backoff still lasts. */
  function Sleeps(s: Svc): (d: real)
    requires s.pc.BackingOff?
    ensures d >= 0.0
  {
    if s.pc.delay > s.now - s.pc.began then s.pc.delay - (s.now - s.pc.began) else 0.0
  }

  /** Both are over. */
  lemma Awakes(u: Setup, xs: seq<SysAct>, y: Sys, m: Name, r: Resolver, n: Name, q: Resolver)
      returns (xs': seq<SysAct>, y': Sys)
    requires Ran(u, xs, y) && m in u.services && m in y.svcs && Backing(y.svcs[m]) && Alone(u, y, m, n, q)
    requires r !in u.once
    ensures Ran(u, xs', y') && Alone(u, y', m, n, q) && !Served(u, y', r) && m in y'.svcs && y'.svcs[m].pc.Rendering?
    ensures y'.svcs.Keys == y.svcs.Keys && y'.got == y.got && y'.gen == y.gen
    ensures forall j | j in y.svcs && j != m :: y'.svcs[j] == y.svcs[j].(now := y'.svcs[j].now)
  {
    var d := Kept(u, y, r) + Sleeps(y.svcs[m]);
    var mid;
    xs', mid := TimePasses(u, xs, y, d, m, n, q);
    xs', y' := RendersAgain(u, xs', mid, m, n, q);
  }

  /** `m` renders, and moves `r`. */
  lemma Overtake(u: Setup, xs: seq<SysAct>, y: Sys, n: Name, m: Name, r: Resolver, q: Resolver)
      returns (xs': seq<SysAct>, y': Sys)
    requires Ran(u, xs, y) && n != m && Stuck(u, y, n, q) && y.got[n].Keys <= u.uses[n]
    requires r in y.got[n] && r in u.uses[n] && y.got[n][r] <= Gen(y.gen, r) && Less(r, q)
    requires InRender(u, y, m) && y.got[m] == map[] && r in u.uses[m] && r !in u.once && !Served(u, y, r)
    requires Alone(u, y, m, n, q)
    ensures Ran(u, xs', y') && Overtaken(u, y', n, m, r)
  {
    LessAsymmetric(r, q);
    var mid;
    xs', mid := ResolveUpTo(u, xs, y, m, r, n, q);
    assert r !in Below(u.uses[m], r) by { if Less(r, r) { LessAsymmetric(r, r); } }
    ServedSame(u, y, mid, r);
    xs', y' := Moves(u, xs', mid, m, r, n, q);
    assert mid.svcs[n] == y.svcs[n] && mid.got[n] == y.got[n] && y'.svcs[n] == mid.svcs[n] && y'.got[n] == mid.got[n];
    assert Gen(y.gen, r) <= Gen(mid.gen, r);
    forall j | j in y'.svcs && j != n && j != m ensures !y'.svcs[j].pc.Rendering? {
      assert y'.svcs[j] == mid.svcs[j] == y.svcs[j];
    }
  }

  lemma Moves(u: Setup, xs: seq<SysAct>, y: Sys, m: Name, r: Resolver, n: Name, q: Resolver)
      returns (xs': seq<SysAct>, y': Sys)
    requires Ran(u, xs, y) && InRender(u, y, m) && NextUp(u.uses[m], y.got[m], r) && y.got[m].Keys <= u.uses[m]
    requires r !in u.once && !Served(u, y, r) && Alone(u, y, m, n, q)
    ensures Ran(u, xs', y') && Meanwhile(y, y', m) && Gen(y.gen, r) < Gen(y'.gen, r) && Rendered(u, y', m)
  {
    assert Stuck(u, y, m, r);
    NobodyElse(u, y, m, n, q);
    if y.got[m].Keys + {r} == u.uses[m] {
      xs', y' := ResolveLast(u, xs, y, m, r, true);
    } else {
      xs', y' := ResolveNext(u, xs, y, m, r, true);
    }
  }

  lemma PoisedEndsBehind(u: Setup, xs: seq<SysAct>, y: Sys, n: Name, m: Name, r: Resolver, q: Resolver)
      returns (xs': seq<SysAct>, y': Sys)
    requires Ran(u, xs, y) && Poised(u, y, n, m, r, q) && Overtakes(u, n, m, r, q)
    ensures Ran(u, xs', y') && Behind(y', n, r)
  {
    var mid, late;
    xs', mid := Awakes(u, xs, y, m, r, n, q);
    xs', late := Overtake(u, xs', mid, n, m, r, q);
    xs', y' := FinishBehind(u, xs', late, n, m, r);
  }

  // ---- Its beginning -----------------------------------------------------------------------------------

  /** `n` waits for `q`, with `r` resolved, and nobody else renders. */
  ghost predicate AtQ(u: Setup, y: Sys, n: Name, r: Resolver, q: Resolver) {
    && Stuck(u, y, n, q) && y.got[n].Keys <= u.uses[n] && r in y.got[n]
    && forall m | m in y.svcs && m != n :: !y.svcs[m].pc.Rendering?
  }

  lemma ComesToQ(u: Setup, xs: seq<SysAct>, y: Sys, n: Name, r: Resolver, q: Resolver)
      returns (xs': seq<SysAct>, y': Sys)
    requires Ran(u, xs, y) && InRender(u, y, n) && y.got[n] == map[] && Alone(u, y, n, n, "")
    requires r in u.uses[n] && q in u.uses[n] && Less(r, q) && !Served(u, y, q)
    ensures Ran(u, xs', y') && Meanwhile(y, y', n) && AtQ(u, y', n, r, q)
  {
    xs', y' := ResolveUpTo(u, xs, y, n, q, n, "");
    assert q !in Below(u.uses[n], q) by { if Less(q, q) { LessAsymmetric(q, q); } }
    ServedSame(u, y, y', q);
    LessAsymmetric(r, q);
  }

  /** If `q` is run at every spawn: with the whole instance up, `n` crashes and comes back when `q` is kept no longer. */
  lemma ComesBackToQ(u: Setup, order: seq<Name>, n: Name, m: Name, r: Resolver, q: Resolver)
      returns (xs: seq<SysAct>, y: Sys)
    requires ValidSetup(u) && StartOrder.Topological(AfterGraph(u), order) && n in u.services && m in u.services && n != m
    requires u.services[n].maxRestarts > 0
    requires r in u.uses[n] && q in u.uses[n] && Less(r, q) && q !in u.once
    ensures Ran(u, xs, y) && AtQ(u, y, n, r, q)
    ensures m in y.svcs && Settled(y.svcs[m]) && m in y.got && y.got[m] == map[]
  {
    var a, b, c;
    xs, a := AllUp(u, order, n, m);
    xs, b := Crashes(u, xs, a, n, n, "");
    xs, c := Awakes(u, xs, b, n, q, n, "");
    xs, y := ComesToQ(u, xs, c, n, r, q);
  }

  lemma AllUp(u: Setup, order: seq<Name>, n: Name, m: Name) returns (xs: seq<SysAct>, y: Sys)
    requires ValidSetup(u) && StartOrder.Topological(AfterGraph(u), order) && n in u.services && m in u.services
    ensures Ran(u, xs, y) && y.svcs.Keys == y.got.Keys == u.services.Keys && Alone(u, y, n, n, "")
    ensures Settled(y.svcs[n]) && Settled(y.svcs[m]) && y.got[n] == map[] && y.got[m] == map[]
  {
    var want := u.services.Keys;
    assert ClosedUnder(u, want);
    xs, y := BringUp(u, order, want);
    var done := u.services.Keys * want;
    assert n in done && m in done;
    UpIsAlone(u, y, done, n);
    assert Placed(u, y.svcs, done, n) && Placed(u, y.svcs, done, m);
  }

  // ---- What two services wait for ----------------------------------------------------------------------

  ghost function Waited(u: Setup, n: Name, m: Name): set<Name> {
    set d | d in u.services && (WaitsFor(u, n, d) || WaitsFor(u, m, d))
  }

  lemma WaitsDirectly(u: Setup, n: Name, d: Name)
    requires ValidSetup(u) && n in u.services && d in u.services[n].after
    ensures WaitsFor(u, n, d)
  {
    var p := [n, d];
    assert DependencyPath(u, p) && |p| > 1 && p[0] == n && p[|p| - 1] == d;
  }

  lemma WaitsOn(u: Setup, n: Name, d: Name, e: Name)
    requires ValidSetup(u) && WaitsFor(u, n, d) && e in u.services[d].after
    ensures WaitsFor(u, n, e)
  {
    var p :| DependencyPath(u, p) && |p| > 1 && p[0] == n && p[|p| - 1] == d;
    var more := p + [e];
    forall i | 0 <= i < |more| - 1 ensures more[i + 1] in u.services[more[i]].after {
      if i + 1 < |p| { assert p[i + 1] in u.services[p[i]].after; }
    }
    assert DependencyPath(u, more) && more[0] == n && more[|more| - 1] == e;
  }

  /** Nobody waits for itself. */
  lemma NoSelfWait(u: Setup, order: seq<Name>, n: Name)
    requires ValidSetup(u) && StartOrder.Topological(AfterGraph(u), order)
    ensures !WaitsFor(u, n, n)
  {
    if WaitsFor(u, n, n) {
      var p :| DependencyPath(u, p) && |p| > 1 && p[0] == n && p[|p| - 1] == n;
      forall i | 0 <= i < |p| - 1 ensures StartOrder.Edge(AfterGraph(u), p[i], p[i + 1]) {
        assert p[i + 1] in u.services[p[i]].after;
      }
      StartOrder.OrderExcludesCycles(AfterGraph(u), order, p);
    }
  }

  lemma WaitedIsClosed(u: Setup, n: Name, m: Name)
    requires ValidSetup(u)
    ensures ClosedUnder(u, Waited(u, n, m))
  {
    forall d, e | d in Waited(u, n, m) && d in u.services && e in u.services[d].after ensures e in Waited(u, n, m) {
      if WaitsFor(u, n, d) { WaitsOn(u, n, d, e); } else { WaitsOn(u, m, d, e); }
    }
  }

  lemma UsedIsResolved(u: Setup, n: Name, m: Name, q: Resolver)
    requires UsedBy(u, Waited(u, n, m), q)
    ensures ResolvedBefore(u, n, q) || ResolvedBefore(u, m, q)
  {
    var d :| d in Waited(u, n, m) && d in u.uses && q in u.uses[d];
  }

  /** Everything `n` and `m` wait for is up, and nothing has resolved `q`. */
  lemma WaitedUp(u: Setup, order: seq<Name>, n: Name, m: Name, q: Resolver) returns (xs: seq<SysAct>, y: Sys)
    requires ValidSetup(u) && StartOrder.Topological(AfterGraph(u), order)
    requires !ResolvedBefore(u, n, q) && !ResolvedBefore(u, m, q)
    ensures Ran(u, xs, y) && Up(u, y, Waited(u, n, m)) && Gen(y.gen, q) == 0
  {
    var want := Waited(u, n, m);
    WaitedIsClosed(u, n, m);
    xs, y := BringUp(u, order, want);
    assert u.services.Keys * want == want;
    if UsedBy(u, want, q) { UsedIsResolved(u, n, m, q); }
  }

  /** `m` is up, or has not begun and could. */
  ghost predicate Able(u: Setup, y: Sys, n: Name, m: Name) {
    && m in u.services && m in y.svcs && m in y.got && y.got[m] == map[]
    && if WaitsFor(u, n, m) then Settled(y.svcs[m])
       else NotBegun(u.services[m], y.svcs[m], Waited(u, n, m)) &&
            forall d | d in u.services[m].after :: d in Waited(u, n, m) && d in y.svcs && d != m && y.svcs[d].ready
  }

  lemma UpIsAble(u: Setup, order: seq<Name>, y: Sys, n: Name, m: Name)
    requires ValidSetup(u) && StartOrder.Topological(AfterGraph(u), order) && Up(u, y, Waited(u, n, m))
    requires m in u.services
    ensures Able(u, y, n, m)
  {
    NoSelfWait(u, order, m);
    assert Placed(u, y.svcs, Waited(u, n, m), m);
    forall d | d in u.services[m].after ensures d in Waited(u, n, m) && d in y.svcs && d != m && y.svcs[d].ready {
      WaitsDirectly(u, m, d);
      assert Placed(u, y.svcs, Waited(u, n, m), d);
    }
  }

  lemma AbleStays(u: Setup, y: Sys, y': Sys, n: Name, m: Name)
    requires ValidSetup(u) && Able(u, y, n, m) && n != m && !WaitsFor(u, m, n) && y'.svcs.Keys == y.svcs.Keys
    requires forall j | j in y.svcs && j != n :: y'.svcs[j] == y.svcs[j]
    requires m in y'.got && y'.got[m] == y.got[m]
    ensures Able(u, y', n, m)
  {
    forall d | d in u.services[m].after ensures d != n { WaitsDirectly(u, m, d); }
  }

  /** With that up, `n` comes to its first render. */
  lemma FirstRenders(u: Setup, order: seq<Name>, n: Name, m: Name, q: Resolver) returns (xs: seq<SysAct>, y: Sys)
    requires ValidSetup(u) && StartOrder.Topological(AfterGraph(u), order) && n in u.services && m in u.services && n != m
    requires !ResolvedBefore(u, n, q) && !ResolvedBefore(u, m, q) && !WaitsFor(u, m, n)
    ensures Ran(u, xs, y) && InRender(u, y, n) && y.got[n] == map[] && Alone(u, y, n, n, "") && Able(u, y, n, m)
    ensures Gen(y.gen, q) == 0
  {
    var want, before := Waited(u, n, m), SysInit(u);
    xs, before := WaitedUp(u, order, n, m, q);
    UpIsAble(u, order, before, n, m);
    NoSelfWait(u, order, n);
    forall d | d in u.services[n].after ensures d in want && d in u.services { WaitsDirectly(u, n, d); }
    xs, y := ComesToRender(u, xs, before, want, n);
    AbleStays(u, before, y, n, m);
  }

  /** If `q` is resolved once and nothing has yet: `n` comes to it in its first render. */
  lemma ComesFirstToQ(u: Setup, order: seq<Name>, n: Name, m: Name, r: Resolver, q: Resolver)
      returns (xs: seq<SysAct>, y: Sys)
    requires ValidSetup(u) && StartOrder.Topological(AfterGraph(u), order) && n in u.uses
    requires Overtakes(u, n, m, r, q) && q in u.once
    ensures Ran(u, xs, y) && AtQ(u, y, n, r, q) && Able(u, y, n, m)
  {
    var mid;
    xs, mid := FirstRenders(u, order, n, m, q);
    xs, y := ComesToQ(u, xs, mid, n, r, q);
    AbleStays(u, mid, y, n, m);
  }

  lemma PoisedNow(u: Setup, y: Sys, y': Sys, n: Name, m: Name, r: Resolver, q: Resolver)
    requires AtQ(u, y, n, r, q) && n != m && y.got[n][r] <= Gen(y.gen, r) && y'.gen == y.gen && n in y'.got
    requires y'.got[n] == y.got[n] && m in u.services && m in u.uses && m in y'.svcs && m in y'.got
    requires Backing(y'.svcs[m]) && y'.got[m] == map[] && Alone(u, y', m, n, q)
    requires n in y'.svcs && y'.svcs[n] == y.svcs[n]
    ensures Poised(u, y', n, m, r, q)
  {
  }

  lemma AtQIsAlone(u: Setup, y: Sys, n: Name, m: Name, r: Resolver, q: Resolver)
    requires AtQ(u, y, n, r, q)
    ensures Alone(u, y, m, n, q)
  {
  }

  lemma GotIsOld(u: Setup, xs: seq<SysAct>, y: Sys, n: Name, r: Resolver)
    requires ValidSetup(u) && Ran(u, xs, y) && n in y.got && r in y.got[n]
    ensures y.got[n][r] <= Gen(y.gen, r)
  {
    EveryStaleServiceIsCovered(u, xs);
    assert AtMost(y.got[n], y.gen);
  }

  /** `m` backs off while `n` waits: it is up and crashes. */
  lemma CrashesMeanwhile(u: Setup, xs: seq<SysAct>, y: Sys, n: Name, m: Name, r: Resolver, q: Resolver)
      returns (xs': seq<SysAct>, y': Sys)
    requires ValidSetup(u) && Ran(u, xs, y) && AtQ(u, y, n, r, q) && n != m && m in u.services && m in y.svcs
    requires m in y.got && y.got[m] == map[] && Settled(y.svcs[m]) && Retries(u.services[m])
    ensures Ran(u, xs', y') && Poised(u, y', n, m, r, q)
  {
    AtQIsAlone(u, y, n, m, r, q);
    GotIsOld(u, xs, y, n, r);
    xs', y' := Crashes(u, xs, y, m, n, q);
    PoisedNow(u, y, y', n, m, r, q);
  }

  /** Or its first render fails. */
  lemma FailsMeanwhile(u: Setup, xs: seq<SysAct>, y: Sys, n: Name, m: Name, r: Resolver, q: Resolver)
      returns (xs': seq<SysAct>, y': Sys)
    requires ValidSetup(u) && Ran(u, xs, y) && AtQ(u, y, n, r, q) && n != m && Able(u, y, n, m) && !WaitsFor(u, n, m)
    requires r in u.uses[m] && Retries(u.services[m])
    ensures Ran(u, xs', y') && Poised(u, y', n, m, r, q)
  {
    AtQIsAlone(u, y, n, m, r, q);
    GotIsOld(u, xs, y, n, r);
    var mid;
    xs', mid := FirstRender(u, xs, y, Waited(u, n, m), m, n, q);
    xs', y' := FailsToStart(u, xs', mid, m, n, q);
    PoisedNow(u, y, y', n, m, r, q);
  }

  // ---- The exact condition -----------------------------------------------------------------------------

  /** A race: `n` waits for `q` when `m` moves `r`. */
  lemma Race(u: Setup, order: seq<Name>, n: Name, m: Name, r: Resolver, q: Resolver) returns (xs: seq<SysAct>, y: Sys)
    requires ValidSetup(u) && StartOrder.Topological(AfterGraph(u), order) && n in u.uses && Overtakes(u, n, m, r, q)
    requires Retries(u.services[n]) && Retries(u.services[m])
    ensures Ran(u, xs, y) && Behind(y, n, r)
  {
    if q !in u.once {
      xs, y := ComesBackToQ(u, order, n, m, r, q);
      xs, y := CrashesMeanwhile(u, xs, y, n, m, r, q);
    } else {
      xs, y := ComesFirstToQ(u, order, n, m, r, q);
      if WaitsFor(u, n, m) {
        xs, y := CrashesMeanwhile(u, xs, y, n, m, r, q);
      } else {
        xs, y := FailsMeanwhile(u, xs, y, n, m, r, q);
      }
    }
    xs, y := PoisedEndsBehind(u, xs, y, n, m, r, q);
  }

  /** `n`, and whoever shares a resolver with it, may be restarted. */
  predicate SharersRetry(u: Setup, n: Name) {
    n in u.uses && n in u.services && Retries(u.services[n]) &&
    forall m, r | m in u.services && m in u.uses && r in u.uses[n] && r in u.uses[m] :: Retries(u.services[m])
  }

  /** If these actions are a prompt run, `n` is recorded on what it was given at its end. */
  ghost predicate AgreesAfter(u: Setup, xs: seq<SysAct>, n: Name) {
    SysAfter(u, xs).Some? && Prompt(u, xs) ==> Agrees(SysAfter(u, xs).value, n)
  }

  /** Exactly when the recorded generations of a service are always those it was given: when nobody can overtake it.
      The services may wait for one another in any way that has a start order. */
  lemma AgreesExactly(u: Setup, order: seq<Name>, n: Name)
    requires ValidSetup(u) && StartOrder.Topological(AfterGraph(u), order) && SharersRetry(u, n)
    ensures (forall xs :: AgreesAfter(u, xs, n)) <==> !Overtakable(u, n)
  {
    if Overtakable(u, n) {
      var m, r, q :| Overtakes(u, n, m, r, q);
      var xs, y := Race(u, order, n, m, r, q);
      assert !AgreesAfter(u, xs, n);
    } else {
      forall xs ensures AgreesAfter(u, xs, n) {
        if SysAfter(u, xs).Some? && Prompt(u, xs) { NotOvertakenAgrees(u, xs, n); }
      }
    }
  }
}
