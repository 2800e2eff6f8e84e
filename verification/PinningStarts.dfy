/** Starting an instance, or part of it, as a prompt run: every service comes up after those it waits for, and any
    service that may be restarted once comes to another render. */
module PinningStarts {
  import opened Names
  import opened Sets
  import opened Wrappers
  import opened ServiceModel
  import opened ServiceBudget
  import opened SupervisorModel
  import opened PinningSplits
  import opened PinningRenders
  import StartOrder

  /** The `after` lists. */
  function AfterGraph(u: Setup): StartOrder.Graph {
    map n | n in u.services :: u.services[n].after
  }

  /** The actions of one service that touch nothing else. */
  predicate Own(a: Action) {
    match a
    case Env(Tick(_)) => false
    case Spawn(RenderDone(_)) => false
    case Call(_) => false
    case Dep(_) => false
    case Run(ProbeEnds(_)) => false
    case _ => true
  }

  lemma OwnDo(u: Setup, xs: seq<SysAct>, y: Sys, n: Name, a: Action, k: Name, q: Resolver)
      returns (xs': seq<SysAct>, y': Sys)
    requires Ran(u, xs, y) && n in u.services && n in y.svcs && Alone(u, y, n, k, q) && !y.svcs[n].pc.Rendering?
    requires Own(a) && Enabled(u.services[n], y.svcs[n], a)
    ensures Ran(u, xs', y') && Only(y, y', n) && y'.svcs[n] == Step(u.services[n], y.svcs[n], a)
    ensures Alone(u, y', n, k, q)
  {
    xs', y' := LocalDo(u, xs, y, n, a, k, q);
    AloneOnly(u, y, y', n, k, q);
  }

  // ---- Backing off -------------------------------------------------------------------------------------

  /** A service that is up, for the first time and with nothing the matter. */
  predicate Settled(s: Svc) {
    && s.pc.AwaitExit? && s.ready && !s.stopping && !s.bounce && !s.gateStop && s.failTimes == []
    && s.life.proc.Some? && s.life.codes == map[] && s.life.pathW.Off?
  }

  /** Nothing has happened to it yet. */
  predicate Fresh(s: Svc) {
    !s.stopping && !s.bounce && !s.gateStop && s.failTimes == [] && s.life.codes == map[]
  }

  /** Its process has ended with `code`. */
  predicate Over(s: Svc, code: int) {
    && !s.stopping && !s.bounce && !s.gateStop && s.failTimes == []
    && s.life.proc.Some? && s.life.proc.value in s.life.codes && s.life.codes[s.life.proc.value] == code
    && s.life.pathW.Off?
  }

  /** What a render or a process start that fails counts as. */
  const NOT_STARTED := 127

  /** May be restarted once, also when it could not be started at all. */
  predicate Retries(c: Config) {
    c.maxRestarts > 0 && NOT_STARTED !in c.noRetry
  }

  predicate Backing(s: Svc) {
    s.pc.BackingOff? && !s.stopping
  }

  lemma ExitsAndIsSeen(u: Setup, xs: seq<SysAct>, y: Sys, n: Name, code: int, k: Name, q: Resolver)
      returns (xs': seq<SysAct>, y': Sys)
    requires Ran(u, xs, y) && n in u.services && n in y.svcs && Settled(y.svcs[n]) && Alone(u, y, n, k, q)
    ensures Ran(u, xs', y') && Only(y, y', n) && Over(y'.svcs[n], code) && y'.svcs[n].pc.Reaping?
    ensures Alone(u, y', n, k, q)
  {
    var mid;
    xs', mid := OwnDo(u, xs, y, n, Env(Exited(code)), k, q);
    xs', y' := OwnDo(u, xs', mid, n, Run(SeeExit), k, q);
    OnlyOn(y, mid, y', n);
  }

  lemma IsReaped(u: Setup, xs: seq<SysAct>, y: Sys, n: Name, code: int, k: Name, q: Resolver)
      returns (xs': seq<SysAct>, y': Sys)
    requires Ran(u, xs, y) && n in u.services && n in y.svcs && Alone(u, y, n, k, q)
    requires Over(y.svcs[n], code) && y.svcs[n].pc.Reaping?
    ensures Ran(u, xs', y') && Only(y, y', n) && Over(y'.svcs[n], code) && y'.svcs[n].pc.Draining?
    ensures Alone(u, y', n, k, q)
  {
    if y.svcs[n].life.gateW.Off? {
      xs', y' := OwnDo(u, xs, y, n, Run(Reaped), k, q);
    } else {
      var mid;
      xs', mid := OwnDo(u, xs, y, n, Watch(GateCancelled), k, q);
      xs', y' := OwnDo(u, xs', mid, n, Run(Reaped), k, q);
      OnlyOn(y, mid, y', n);
    }
  }

  lemma IsCharged(u: Setup, xs: seq<SysAct>, y: Sys, n: Name, code: int, k: Name, q: Resolver)
      returns (xs': seq<SysAct>, y': Sys)
    requires Ran(u, xs, y) && n in u.services && n in y.svcs && Over(y.svcs[n], code) && Alone(u, y, n, k, q)
    requires y.svcs[n].pc.Draining? && u.services[n].maxRestarts > 0 && code !in u.services[n].noRetry
    ensures Ran(u, xs', y') && Only(y, y', n) && Backing(y'.svcs[n]) && Alone(u, y', n, k, q)
  {
    xs', y' := OwnDo(u, xs, y, n, Judge(Drained), k, q);
    if |u.services[n].gates| > 0 {
      var mid := y';
      xs', y' := OwnDo(u, xs', mid, n, Judge(JudgeAnswer([])), k, q);
      OnlyOn(y, mid, y', n);
    }
  }

  /** The process of a service that is up exits, and the service backs off. */
  lemma Crashes(u: Setup, xs: seq<SysAct>, y: Sys, n: Name, k: Name, q: Resolver) returns (xs': seq<SysAct>, y': Sys)
    requires Ran(u, xs, y) && n in u.services && n in y.svcs && Settled(y.svcs[n]) && Alone(u, y, n, k, q)
    requires u.services[n].maxRestarts > 0
    ensures Ran(u, xs', y') && Only(y, y', n) && Backing(y'.svcs[n]) && Alone(u, y', n, k, q)
  {
    var code := Above(u.services[n].noRetry);
    var a, b;
    xs', a := ExitsAndIsSeen(u, xs, y, n, code, k, q);
    xs', b := IsReaped(u, xs', a, n, code, k, q);
    OnlyOn(y, a, b, n);
    xs', y' := IsCharged(u, xs', b, n, code, k, q);
    OnlyOn(y, b, y', n);
  }

  /** Time passes while nobody has anything to do. */
  lemma TimePasses(u: Setup, xs: seq<SysAct>, y: Sys, d: real, n: Name, k: Name, q: Resolver)
      returns (xs': seq<SysAct>, y': Sys)
    requires Ran(u, xs, y) && d >= 0.0 && Alone(u, y, n, k, q) && (n in y.svcs ==> !y.svcs[n].pc.Rendering?)
    ensures Ran(u, xs', y') && y' == y.(clock := y.clock + d, svcs := Ticked(y.svcs, d)) && Alone(u, y', n, k, q)
  {
    NobodyElse(u, y, n, k, q);
    xs', y' := PromptDo(u, xs, y, Pass(d));
    if k != n && k in y'.svcs && y'.svcs[k].pc.Rendering? { assert Stuck(u, y, k, q); }
  }

  /** After its backoff a service comes to another render. */
  lemma RendersAgain(u: Setup, xs: seq<SysAct>, y: Sys, n: Name, k: Name, q: Resolver)
      returns (xs': seq<SysAct>, y': Sys)
    requires Ran(u, xs, y) && n in u.services && n in y.svcs && Backing(y.svcs[n]) && Alone(u, y, n, k, q)
    requires y.svcs[n].now - y.svcs[n].pc.began >= y.svcs[n].pc.delay
    ensures Ran(u, xs', y') && Only(y, y', n) && y'.svcs[n].pc.Rendering? && Alone(u, y', n, k, q)
  {
    var mid;
    xs', mid := OwnDo(u, xs, y, n, Judge(BackoffOver), k, q);
    xs', y' := ToRender(u, xs', mid, n, k, q);
    OnlyOn(y, mid, y', n);
    AloneOnly(u, mid, y', n, k, q);
  }

  // ---- A first render that fails -----------------------------------------------------------------------

  /** `n` has failed to start, and nothing has been resolved. */
  ghost predicate Failed(u: Setup, y: Sys, y': Sys, n: Name)
    requires n in u.services && n in y.svcs
  {
    && y'.gen == y.gen && y'.stamps == y.stamps && y'.clock == y.clock && Meanwhile(y, y', n)
    && n in y'.svcs && n in y'.got && y'.got[n] == map[]
    && y'.svcs[n] == Classify(u.services[n], y.svcs[n], None, NOT_STARTED)
  }

  /** A render fails, at the first resolver that the cache does not answer or after the last. */
  lemma {:induction false} RenderFails(u: Setup, xs: seq<SysAct>, y: Sys, n: Name, k: Name, q: Resolver)
      returns (xs': seq<SysAct>, y': Sys)
    requires Ran(u, xs, y) && InRender(u, y, n) && y.got[n].Keys <= u.uses[n] && y.got[n].Keys != u.uses[n]
    requires Alone(u, y, n, k, q)
    ensures Ran(u, xs', y') && Failed(u, y, y', n) && Alone(u, y', n, k, q)
    decreases |u.uses[n] - y.got[n].Keys|
  {
    SomethingLeft(y.got[n].Keys, u.uses[n]);
    var x := LeastIn(u.uses[n] - y.got[n].Keys);
    if !Served(u, y, x) {
      xs', y' := FailsNow(u, xs, y, n, x, k, q);
    } else if y.got[n].Keys + {x} == u.uses[n] {
      xs', y' := LastFails(u, xs, y, n, x, k, q);
    } else {
      var mid;
      xs', mid := CachedOne(u, xs, y, n, x, k, q);
      MoreLeft(u.uses[n], y.got[n].Keys, mid.got[n].Keys, x);
      xs', y' := RenderFails(u, xs', mid, n, k, q);
      MeanwhileOn(y, mid, y', n);
    }
  }

  lemma FailsNow(u: Setup, xs: seq<SysAct>, y: Sys, n: Name, r: Resolver, k: Name, q: Resolver)
      returns (xs': seq<SysAct>, y': Sys)
    requires Ran(u, xs, y) && Stuck(u, y, n, r) && Alone(u, y, n, k, q)
    ensures Ran(u, xs', y') && Failed(u, y, y', n) && Alone(u, y', n, k, q)
  {
    NobodyElse(u, y, n, k, q);
    xs', y' := PromptDo(u, xs, y, ResolveFails(n));
    AloneStays(u, y, y', n, k, q);
  }

  lemma CachedOne(u: Setup, xs: seq<SysAct>, y: Sys, n: Name, r: Resolver, k: Name, q: Resolver)
      returns (xs': seq<SysAct>, y': Sys)
    requires Ran(u, xs, y) && InRender(u, y, n) && NextUp(u.uses[n], y.got[n], r) && Served(u, y, r)
    requires y.got[n].Keys + {r} != u.uses[n] && Alone(u, y, n, k, q)
    ensures Ran(u, xs', y') && Meanwhile(y, y', n) && InRender(u, y', n) && Further(y, y', n) && Alone(u, y', n, k, q)
    ensures y'.gen == y.gen && y'.stamps == y.stamps && y'.got[n].Keys == y.got[n].Keys + {r}
  {
    OneShape(u, y, n, r, false);
    xs', y' := PromptDo(u, xs, y, Resolve(n, r, false, true, []));
    AloneStays(u, y, y', n, k, q);
  }

  lemma LastFails(u: Setup, xs: seq<SysAct>, y: Sys, n: Name, r: Resolver, k: Name, q: Resolver)
      returns (xs': seq<SysAct>, y': Sys)
    requires Ran(u, xs, y) && InRender(u, y, n) && NextUp(u.uses[n], y.got[n], r) && Served(u, y, r)
    requires y.got[n].Keys + {r} == u.uses[n] && Alone(u, y, n, k, q)
    ensures Ran(u, xs', y') && Failed(u, y, y', n) && Alone(u, y', n, k, q)
  {
    var wave := WaveExists(u, y.rec, n, Recorded(u, Resolved(y.gen, r, false), n));
    LastShape(u, y, n, r, false, false, wave);
    xs', y' := PromptDo(u, xs, y, Resolve(n, r, false, false, wave));
    AloneStays(u, y, y', n, k, q);
  }

  /** It backs off. */
  lemma FailsToStart(u: Setup, xs: seq<SysAct>, y: Sys, n: Name, k: Name, q: Resolver)
      returns (xs': seq<SysAct>, y': Sys)
    requires Ran(u, xs, y) && InRender(u, y, n) && y.got[n] == map[] && u.uses[n] != {} && Fresh(y.svcs[n])
    requires Retries(u.services[n]) && Alone(u, y, n, k, q)
    ensures Ran(u, xs', y') && y'.gen == y.gen && y'.stamps == y.stamps && Meanwhile(y, y', n)
    ensures n in y'.svcs && Backing(y'.svcs[n]) && n in y'.got && y'.got[n] == map[] && Alone(u, y', n, k, q)
  {
    var mid;
    xs', mid := RenderFails(u, xs, y, n, k, q);
    y' := mid;
    if |u.services[n].gates| > 0 {
      xs', y' := OwnDo(u, xs', mid, n, Judge(JudgeAnswer([])), k, q);
      MeanwhileOn(y, mid, y', n);
    }
  }

  // ---- Bringing services up ----------------------------------------------------------------------------

  /** Not started: still where it began, but for a wake-up from the first service it waits for. */
  predicate NotBegun(c: Config, s: Svc, done: set<Name>) {
    s == Init(c).(pc := if c.after == [] then Top else Depending(0, c.after[0] in done))
  }

  predicate Placed(u: Setup, svcs: map<Name, Svc>, done: set<Name>, n: Name)
    requires n in svcs && n in u.services
  {
    if n in done then Settled(svcs[n]) else NotBegun(u.services[n], svcs[n], done)
  }

  /** Some of these services use `q`. */
  predicate UsedBy(u: Setup, done: set<Name>, q: Resolver) {
    exists d :: d in done && d in u.uses && q in u.uses[d]
  }

  /** These services are up, the others have not begun, and what none of these uses is unresolved. */
  ghost predicate Up(u: Setup, y: Sys, done: set<Name>) {
    && y.svcs.Keys == y.got.Keys == u.services.Keys
    && (forall n | n in y.got :: y.got[n] == map[])
    && (forall n {:trigger Placed(u, y.svcs, done, n)} | n in y.svcs :: Placed(u, y.svcs, done, n))
    && forall q {:trigger UsedBy(u, done, q)} | !UsedBy(u, done, q) :: Gen(y.gen, q) == 0
  }

  lemma UpIsAlone(u: Setup, y: Sys, done: set<Name>, n: Name)
    requires Up(u, y, done)
    ensures Alone(u, y, n, n, "")
  {
    forall j | j in y.svcs ensures !y.svcs[j].pc.Rendering? { assert Placed(u, y.svcs, done, j); }
  }

  /** One wait is over, and the next service waited for is ready, or was the last. */
  lemma DepPasses(u: Setup, xs: seq<SysAct>, y: Sys, n: Name, i: nat, k: Name, q: Resolver)
      returns (xs': seq<SysAct>, y': Sys)
    requires Ran(u, xs, y) && n in u.services && n in y.svcs && i < |u.services[n].after| && Alone(u, y, n, k, q)
    requires y.svcs[n].pc == Depending(i, true) && !y.svcs[n].stopping
    requires i + 1 < |u.services[n].after| ==> var d := u.services[n].after[i + 1]; d in y.svcs && y.svcs[d].ready
    ensures Ran(u, xs', y') && Only(y, y', n) && Alone(u, y', n, k, q)
    ensures y'.svcs[n] == y.svcs[n].(pc := if i + 1 == |u.services[n].after| then Top else Depending(i + 1, true))
  {
    xs', y' := LocalDo(u, xs, y, n, Dep(DepGo(true)), k, q);
    AloneOnly(u, y, y', n, k, q);
  }

  lemma {:induction false} DepsPass(u: Setup, xs: seq<SysAct>, y: Sys, n: Name, i: nat, k: Name, q: Resolver)
      returns (xs': seq<SysAct>, y': Sys)
    requires Ran(u, xs, y) && n in u.services && n in y.svcs && i < |u.services[n].after| && Alone(u, y, n, k, q)
    requires y.svcs[n].pc == Depending(i, true) && !y.svcs[n].stopping
    requires forall d | d in u.services[n].after :: d in y.svcs && d != n && y.svcs[d].ready
    ensures Ran(u, xs', y') && Only(y, y', n) && y'.svcs[n] == y.svcs[n].(pc := Top) && Alone(u, y', n, k, q)
    decreases |u.services[n].after| - i
  {
    var after := u.services[n].after;
    if i + 1 == |after| {
      xs', y' := DepPasses(u, xs, y, n, i, k, q);
    } else {
      assert after[i + 1] in after;
      var mid;
      xs', mid := DepPasses(u, xs, y, n, i, k, q);
      xs', y' := DepsPass(u, xs', mid, n, i + 1, k, q);
      OnlyOn(y, mid, y', n);
    }
  }

  /** Once everything it waits for is ready, a service comes to its first render. */
  lemma FirstRender(u: Setup, xs: seq<SysAct>, y: Sys, done: set<Name>, n: Name, k: Name, q: Resolver)
      returns (xs': seq<SysAct>, y': Sys)
    requires Ran(u, xs, y) && n in u.services && n in y.svcs && Alone(u, y, n, k, q)
    requires NotBegun(u.services[n], y.svcs[n], done)
    requires forall d | d in u.services[n].after :: d in done && d in y.svcs && d != n && y.svcs[d].ready
    ensures Ran(u, xs', y') && Only(y, y', n) && y'.svcs[n].pc.Rendering? && Fresh(y'.svcs[n]) && Alone(u, y', n, k, q)
  {
    if u.services[n].after == [] {
      xs', y' := ToRender(u, xs, y, n, k, q);
      AloneOnly(u, y, y', n, k, q);
    } else {
      assert u.services[n].after[0] in u.services[n].after;
      var mid;
      xs', mid := DepsPass(u, xs, y, n, 0, k, q);
      xs', y' := ToRender(u, xs', mid, n, k, q);
      OnlyOn(y, mid, y', n);
      AloneOnly(u, mid, y', n, k, q);
    }
  }

  /** Its render, from the beginning to the end. */
  lemma WholeRender(u: Setup, xs: seq<SysAct>, y: Sys, n: Name) returns (xs': seq<SysAct>, y': Sys)
    requires Ran(u, xs, y) && InRender(u, y, n) && y.got[n] == map[] && Alone(u, y, n, n, "")
    ensures Ran(u, xs', y') && y'.svcs == y.svcs[n := y.svcs[n].(pc := Forking)] && y'.got == y.got
    ensures SameOff(y, y', u.uses[n])
  {
    if u.uses[n] == {} {
      xs', y' := PlainRender(u, xs, y, n);
    } else {
      xs', y' := FinishRender(u, xs, y, n);
      assert y'.svcs == y.svcs[n := y.svcs[n].(pc := Forking)];
      assert y'.got == y.got;
    }
  }

  lemma PlainRender(u: Setup, xs: seq<SysAct>, y: Sys, n: Name) returns (xs': seq<SysAct>, y': Sys)
    requires Ran(u, xs, y) && InRender(u, y, n) && u.uses[n] == {} && Alone(u, y, n, n, "")
    ensures Ran(u, xs', y') && y' == y.(svcs := y.svcs[n := y.svcs[n].(pc := Forking)])
  {
    forall j, r ensures !Ready(u, y, j, r) { if j != n && j in y.svcs { assert !y.svcs[j].pc.Rendering?; } }
    xs', y' := PromptDo(u, xs, y, RenderPlain(n, true));
  }

  /** The service `n` has come up and has woken whoever waits for it. */
  predicate IsUp(u: Setup, y: Sys, y': Sys, n: Name) {
    n in y.svcs && n in y'.svcs && Settled(y'.svcs[n]) && y'.svcs == WakeAll(u, y.svcs[n := y'.svcs[n]], n)
  }

  lemma IsUpOn(u: Setup, y: Sys, mid: Sys, y': Sys, n: Name)
    requires n in y.svcs && n in mid.svcs && mid.svcs == y.svcs[n := mid.svcs[n]] && IsUp(u, mid, y', n)
    ensures IsUp(u, y, y', n)
  {
    assert mid.svcs[n := y'.svcs[n]] == y.svcs[n := y'.svcs[n]];
  }

  /** Its process starts and becomes ready, and wakes whoever waits for it. */
  lemma StartsAndIsReady(u: Setup, xs: seq<SysAct>, y: Sys, n: Name) returns (xs': seq<SysAct>, y': Sys)
    requires Ran(u, xs, y) && n in u.services && n in y.svcs && y.svcs[n].pc.Forking? && Fresh(y.svcs[n])
    requires Alone(u, y, n, n, "")
    ensures Ran(u, xs', y') && y' == y.(svcs := y'.svcs) && IsUp(u, y, y', n)
  {
    var mid;
    xs', mid := OwnDo(u, xs, y, n, Spawn(ForkDone(true, false)), n, "");
    ghost var up := Step(u.services[n], mid.svcs[n], Run(ProbeEnds(true)));
    xs', y' := LocalDo(u, xs', mid, n, Run(ProbeEnds(true)), n, "");
    assert y'.svcs[n] == up;
    assert mid.svcs[n := up] == y.svcs[n := up];
  }

  /** The render, the process and its readiness of a service that has come to its first render. */
  lemma RunsAndIsReady(u: Setup, xs: seq<SysAct>, y: Sys, n: Name) returns (xs': seq<SysAct>, y': Sys)
    requires Ran(u, xs, y) && InRender(u, y, n) && y.got[n] == map[] && Fresh(y.svcs[n]) && Alone(u, y, n, n, "")
    ensures Ran(u, xs', y') && y'.got == y.got && IsUp(u, y, y', n) && SameOff(y, y', u.uses[n])
  {
    var mid;
    xs', mid := WholeRender(u, xs, y, n);
    forall j | j in mid.svcs && j != n ensures !mid.svcs[j].pc.Rendering? { assert mid.svcs[j] == y.svcs[j]; }
    xs', y' := StartsAndIsReady(u, xs', mid, n);
    IsUpOn(u, y, mid, y', n);
    forall q | q !in u.uses[n] ensures SameAt(y, y', q) { assert SameAt(y, mid, q); }
  }

  lemma OneUp(u: Setup, y: Sys, y': Sys, done: set<Name>, n: Name, m: Name)
    requires Up(u, y, done) && n !in done && IsUp(u, y, y', n) && m in y'.svcs
    ensures m in u.services && Placed(u, y'.svcs, done + {n}, m)
  {
    assert Placed(u, y.svcs, done, m);
  }

  lemma UsedByMore(u: Setup, done: set<Name>, n: Name, q: Resolver)
    requires n in u.uses && (UsedBy(u, done, q) || q in u.uses[n])
    ensures UsedBy(u, done + {n}, q)
  {
    var d :| (d in done || d == n) && d in u.uses && q in u.uses[d];
    assert d in done + {n};
  }

  lemma UpNext(u: Setup, y: Sys, y': Sys, done: set<Name>, n: Name)
    requires Up(u, y, done) && n in u.uses && n !in done && IsUp(u, y, y', n) && y'.got == y.got
    requires SameOff(y, y', u.uses[n])
    ensures Up(u, y', done + {n})
  {
    assert y'.svcs.Keys == u.services.Keys;
    forall m | m in y'.svcs ensures Placed(u, y'.svcs, done + {n}, m) { OneUp(u, y, y', done, n, m); }
    forall q | !UsedBy(u, done + {n}, q) ensures Gen(y'.gen, q) == 0 {
      if UsedBy(u, done, q) || q in u.uses[n] { UsedByMore(u, done, n, q); }
      assert SameAt(y, y', q);
    }
  }

  lemma ComesToRender(u: Setup, xs: seq<SysAct>, y: Sys, done: set<Name>, n: Name) returns (xs': seq<SysAct>, y': Sys)
    requires Ran(u, xs, y) && Up(u, y, done)
    requires n in u.services && n !in done && forall d | d in u.services[n].after :: d in done && d in u.services
    ensures Ran(u, xs', y') && Only(y, y', n) && y'.svcs[n].pc.Rendering? && Fresh(y'.svcs[n])
    ensures Alone(u, y', n, n, "")
  {
    UpIsAlone(u, y, done, n);
    assert Placed(u, y.svcs, done, n);
    forall d | d in u.services[n].after ensures d in y.svcs && d != n && y.svcs[d].ready {
      assert Placed(u, y.svcs, done, d);
    }
    xs', y' := FirstRender(u, xs, y, done, n, n, "");
  }

  lemma BringUpOne(u: Setup, xs: seq<SysAct>, y: Sys, done: set<Name>, n: Name) returns (xs': seq<SysAct>, y': Sys)
    requires u.uses.Keys == u.services.Keys && Ran(u, xs, y) && Up(u, y, done)
    requires n in u.services && n !in done && forall d | d in u.services[n].after :: d in done && d in u.services
    ensures Ran(u, xs', y') && Up(u, y', done + {n})
  {
    var mid;
    xs', mid := ComesToRender(u, xs, y, done, n);
    xs', y' := RunsAndIsReady(u, xs', mid, n);
    IsUpOn(u, y, mid, y', n);
    forall q | q !in u.uses[n] ensures SameAt(y, y', q) { assert SameAt(mid, y', q); }
    UpNext(u, y, y', done, n);
  }

  lemma NothingUp(u: Setup, done: set<Name>)
    requires done == {}
    ensures Up(u, SysInit(u), done) && Ran(u, [], SysInit(u))
  {
  }

  /** Whatever one of these services waits for is one of them. */
  predicate ClosedUnder(u: Setup, want: set<Name>) {
    forall n | n in want && n in u.services :: forall d | d in u.services[n].after :: d in want
  }

  lemma BringUpNext(u: Setup, xs: seq<SysAct>, y: Sys, want: set<Name>, done: set<Name>, n: Name, done': set<Name>)
      returns (xs': seq<SysAct>, y': Sys)
    requires done' == done + if n in want then {n} else {}
    requires u.uses.Keys == u.services.Keys && Ran(u, xs, y) && Up(u, y, done) && n in u.services && n !in done
    requires n in want ==> forall d | d in u.services[n].after :: d in done && d in u.services
    ensures Ran(u, xs', y') && Up(u, y', done')
  {
    if n in want {
      xs', y' := BringUpOne(u, xs, y, done, n);
    } else {
      xs', y' := xs, y;
      assert done' == done;
    }
  }

  /** Those of the first services in the order that are wanted. */
  function Done(order: seq<Name>, want: set<Name>, i: nat): set<Name>
    requires i <= |order|
  {
    Elements(order[..i]) * want
  }

  /** The next service, if it is wanted, can come up. */
  ghost predicate CanComeUp(u: Setup, order: seq<Name>, want: set<Name>, i: nat)
    requires i < |order|
  {
    var n, done := order[i], Done(order, want, i);
    && n in u.services && n !in done && Done(order, want, i + 1) == done + (if n in want then {n} else {})
    && (n in want ==> forall d | d in u.services[n].after :: d in done && d in u.services)
  }

  lemma NextCanComeUp(u: Setup, order: seq<Name>, want: set<Name>, i: nat)
    requires StartOrder.Topological(AfterGraph(u), order) && i < |order| && ClosedUnder(u, want)
    ensures CanComeUp(u, order, want, i)
  {
    var n := order[i];
    assert n in Elements(order);
    forall d | d in u.services[n].after ensures d in Elements(order[..i]) && d in u.services {
      assert d in StartOrder.Deps(AfterGraph(u), n);
      assert d in Elements(order);
    }
    assert order[..i + 1] == order[..i] + [n];
    ElementsAppend(order[..i], [n]);
  }

  lemma {:induction false} BringUpTo(u: Setup, order: seq<Name>, want: set<Name>, i: nat) returns (xs: seq<SysAct>, y: Sys)
    requires u.uses.Keys == u.services.Keys && i <= |order|
    requires forall j: nat {:trigger CanComeUp(u, order, want, j)} | j < |order| :: CanComeUp(u, order, want, j)
    ensures Ran(u, xs, y) && Up(u, y, Done(order, want, i))
  {
    if i == 0 {
      xs, y := [], SysInit(u);
      NothingUp(u, Done(order, want, 0));
    } else {
      var before;
      xs, before := BringUpTo(u, order, want, i - 1);
      assert CanComeUp(u, order, want, i - 1);
      xs, y := BringUpNext(u, xs, before, want, Done(order, want, i - 1), order[i - 1], Done(order, want, i));
    }
  }

  /** Any services that wait for no others come up one after the other, in any order that respects `after`, and
      nothing else happens. */
  lemma BringUp(u: Setup, order: seq<Name>, want: set<Name>) returns (xs: seq<SysAct>, y: Sys)
    requires u.uses.Keys == u.services.Keys && StartOrder.Topological(AfterGraph(u), order) && ClosedUnder(u, want)
    ensures Ran(u, xs, y) && Up(u, y, u.services.Keys * want)
  {
    forall j: nat | j < |order| ensures CanComeUp(u, order, want, j) { NextCanComeUp(u, order, want, j); }
    xs, y := BringUpTo(u, order, want, |order|);
    assert order[..|order|] == order && AfterGraph(u).Keys == u.services.Keys;
    assert Done(order, want, |order|) == u.services.Keys * want;
  }
}
