/** The supervisor's whole-instance protocol (orchestrator/supervisor.py) over the services of
    `ServiceModel`: dependency waits, resolver generations, and the pinned-release bounces. */
module SupervisorModel {
  import opened Names
  import opened Wrappers
  import opened ServiceModel
  import opened ServiceKills
  import opened ServiceFairness

  type Name = string
  type Resolver = string
  type Gens = map<Resolver, nat>

  /** `uses` names the resolvers behind each service's placeholders; `pinned` are the spawn-refreshed
      resolvers that provide at least two names, `once` those refreshed once an instance, and `cacheSeconds` how long
      the result of any other is kept. */
  datatype Setup = Setup(
    services: map<Name, Config>, uses: map<Name, set<Resolver>>, pinned: set<Resolver>, once: set<Resolver>,
    cacheSeconds: map<Resolver, real>)

  predicate ValidSetup(u: Setup) {
    && u.uses.Keys == u.services.Keys
    && forall n | n in u.services :: forall d | d in u.services[n].after :: d in u.services
  }

  /** A bounce task that has been created and has not run yet. */
  datatype Task = Task(target: Name, resolver: Resolver)

  /** `clock` is the one clock of the process, and `stamps` holds when each resolver last ran. `gen` are the resolver
      generations; `got` what the render under way has resolved so far, `used` what
      the last finished render was given, `rec` the generations recorded for it (`_spawn_gens`).
      `dropped` records services for which a needed bounce ran without effect; no transition reads it. */
  datatype Sys = Sys(
    svcs: map<Name, Svc>,
    clock: real,
    stamps: map<Resolver, real>,
    gen: Gens,
    got: map<Name, Gens>,
    used: map<Name, Gens>,
    rec: map<Name, Gens>,
    tasks: seq<Task>,
    dropped: set<Name>)

  datatype SysAct =
    | Local(n: Name, a: Action)
    | Resolve(n: Name, r: Resolver, changed: bool, rendered: bool, wave: seq<Task>)
    | ResolveFails(n: Name)
    | RenderPlain(n: Name, rendered: bool)
    | RunTask(i: nat)
    | Pass(d: real)

  function Gen(gen: Gens, r: Resolver): nat {
    if r in gen then gen[r] else 0
  }

  function SysInit(u: Setup): Sys {
    Sys(map n | n in u.services :: Init(u.services[n]), 0.0, map[], map[],
        map n | n in u.services :: map[], map[], map[], [], {})
  }

  // ---- Pinning -------------------------------------------------------------------------------------

  /** The condition under which `_enforce_pinning`, called for `n`, bounces a sibling. */
  predicate NeedsBounce(u: Setup, rec: map<Name, Gens>, n: Name, gens: Gens, t: Task) {
    && t.resolver in gens && t.resolver in u.pinned
    && t.target in rec && t.target != n
    && t.resolver in rec[t.target] && rec[t.target][t.resolver] != gens[t.resolver]
  }

  /** The tasks one call creates: each needed pair exactly once, and nothing else. */
  ghost predicate IsWave(u: Setup, rec: map<Name, Gens>, n: Name, gens: Gens, wave: seq<Task>) {
    && (forall t :: t in wave <==> NeedsBounce(u, rec, n, gens, t))
    && (forall i, j | 0 <= i < j < |wave| :: wave[i] != wave[j])
  }

  /** The last render of some sibling saw a newer release of a resolver that pins it to `n`. */
  ghost predicate StaleOn(u: Setup, rec: map<Name, Gens>, n: Name, m: Name, r: Resolver) {
    r in u.pinned && n in rec && m in rec && r in rec[n] && r in rec[m] && rec[n][r] < rec[m][r]
  }

  ghost predicate Stale(u: Setup, rec: map<Name, Gens>, n: Name) {
    exists m, r :: StaleOn(u, rec, n, m, r)
  }

  predicate Pending(tasks: seq<Task>, n: Name) {
    exists i | 0 <= i < |tasks| :: tasks[i].target == n
  }

  ghost predicate LiveTold(s: Svc) {
    Live(s.life) && Told(s.signals, s.life.proc.value)
  }

  /** A bounce running now would return early, and nobody told the incarnation that is running or starting. */
  ghost predicate Misses(s: Svc) {
    !s.stopping && (s.pc.Forking? || (Live(s.life) && s.bounce && !LiveTold(s)))
  }

  // ---- Transitions ---------------------------------------------------------------------------------

  /** Generations after `r` was resolved again. */
  function Resolved(gen: Gens, r: Resolver, changed: bool): Gens {
    if changed then gen[r := Gen(gen, r) + 1] else gen
  }

  function Recorded(u: Setup, gen: Gens, n: Name): Gens
    requires n in u.uses
  {
    map r | r in u.uses[n] :: Gen(gen, r)
  }

  /** What the supervisor leaves to the services themselves.  Rendering, `restart`, the wake-up of a dependency wait and
      the passing of time have their own system steps. */
  predicate IsLocal(u: Setup, svcs: map<Name, Svc>, n: Name, a: Action)
    requires n in u.services && n in svcs
  {
    match a
    case Env(Tick(_)) => false
    case Spawn(RenderDone(_)) => false
    case Call(BounceCall) => false
    case Dep(DepWake) => false
    case Dep(DepGo(nextSet)) =>
      svcs[n].pc.Depending? &&
      var k := svcs[n].pc.k + 1;
      k < |u.services[n].after| && u.services[n].after[k] in svcs ==> nextSet == svcs[u.services[n].after[k]].ready
    case _ => true
  }

  /** A render resolves its resolvers one after the other, in sorted order. */
  predicate NextUp(uses: set<Resolver>, got: Gens, r: Resolver) {
    r in uses && r !in got && forall q | q in uses && q !in got && q != r :: Less(r, q)
  }

  /** The cache answers: the resolver has run, and its result is kept for the whole instance or is young enough. */
  predicate Served(u: Setup, y: Sys, r: Resolver) {
    Gen(y.gen, r) > 0 &&
    (r in u.once || (r in y.stamps && r in u.cacheSeconds && y.clock - y.stamps[r] < u.cacheSeconds[r]))
  }

  /** A first resolution always moves; the result of a resolver refreshed once an instance is kept. */
  predicate MayMove(u: Setup, gen: Gens, r: Resolver, changed: bool) {
    if Gen(gen, r) == 0 then changed else r in u.once ==> !changed
  }

  ghost predicate Can(u: Setup, y: Sys, x: SysAct) {
    match x
    case Local(n, a) => n in u.services && n in y.svcs && IsLocal(u, y.svcs, n, a) && Enabled(u.services[n], y.svcs[n], a)
    case Resolve(n, r, changed, rendered, wave) =>
      && n in u.services && n in u.uses && n in y.svcs && n in y.got && y.svcs[n].pc.Rendering?
      && NextUp(u.uses[n], y.got[n], r) && MayMove(u, y.gen, r, changed) && (Served(u, y, r) ==> !changed)
      && (y.got[n].Keys + {r} == u.uses[n] ==> IsWave(u, y.rec, n, Recorded(u, Resolved(y.gen, r, changed), n), wave))
    case ResolveFails(n) =>
      && n in u.services && n in u.uses && n in y.svcs && n in y.got && y.svcs[n].pc.Rendering?
      && exists r :: NextUp(u.uses[n], y.got[n], r) && !Served(u, y, r)
    case RenderPlain(n, _) => n in u.services && n in u.uses && n in y.svcs && u.uses[n] == {} && y.svcs[n].pc.Rendering?
    case RunTask(i) => i < |y.tasks| && y.tasks[i].target in y.svcs
    case Pass(d) => d >= 0.0
  }

  /** Time passes for everybody. */
  function Ticked(svcs: map<Name, Svc>, d: real): map<Name, Svc> {
    map n | n in svcs :: svcs[n].(now := svcs[n].now + d)
  }

  /** `ready_event.set()`: every service waiting on `d` wakes up. */
  function Woken(c: Config, s: Svc, d: Name): Svc {
    if s.pc.Depending? && !s.pc.woken && s.pc.k < |c.after| && c.after[s.pc.k] == d then s.(pc := Depending(s.pc.k, true))
    else s
  }

  function WakeAll(u: Setup, svcs: map<Name, Svc>, d: Name): map<Name, Svc> {
    map m | m in svcs :: if m in u.services then Woken(u.services[m], svcs[m], d) else svcs[m]
  }

  function Render(u: Setup, y: Sys, n: Name, ok: bool): map<Name, Svc>
    requires n in u.services && n in y.svcs && y.svcs[n].pc.Rendering?
  {
    y.svcs[n := StepSpawn(u.services[n], y.svcs[n], RenderDone(ok))]
  }

  ghost function SysStep(u: Setup, y: Sys, x: SysAct): Sys
    requires Can(u, y, x)
  {
    match x
    case Local(n, a) =>
      var svcs := y.svcs[n := Step(u.services[n], y.svcs[n], a)];
      y.(svcs := if a == Run(ProbeEnds(true)) then WakeAll(u, svcs, n) else svcs)
    case Resolve(n, r, changed, rendered, wave) =>
      var gen := Resolved(y.gen, r, changed);
      var got := y.got[n][r := Gen(gen, r)];
      var stamps := if Served(u, y, r) then y.stamps else y.stamps[r := y.clock];
      if got.Keys != u.uses[n] then y.(gen := gen, stamps := stamps, got := y.got[n := got])
      else
        y.(gen := gen,
           stamps := stamps,
           got := y.got[n := map[]],
           used := y.used[n := got],
           rec := y.rec[n := Recorded(u, gen, n)],
           tasks := y.tasks + wave,
           svcs := Render(u, y, n, rendered),
           dropped := y.dropped - {n})
    case ResolveFails(n) => y.(got := y.got[n := map[]], svcs := Render(u, y, n, false))
    case RenderPlain(n, ok) => y.(svcs := Render(u, y, n, ok))
    case RunTask(i) =>
      var n := y.tasks[i].target;
      y.(tasks := y.tasks[..i] + y.tasks[i + 1..],
         svcs := y.svcs[n := Restart(y.svcs[n])],
         dropped := if Misses(y.svcs[n]) && Stale(u, y.rec, n) then y.dropped + {n} else y.dropped)
    case Pass(d) => y.(clock := y.clock + d, svcs := Ticked(y.svcs, d))
  }

  ghost function SysAfter(u: Setup, xs: seq<SysAct>): Option<Sys> {
    if |xs| == 0 then Some(SysInit(u))
    else
      match SysAfter(u, xs[..|xs| - 1])
      case None => None
      case Some(y) => if Can(u, y, xs[|xs| - 1]) then Some(SysStep(u, y, xs[|xs| - 1])) else None
  }

  // ---- When the cache answers --------------------------------------------------------------------------

  /** The resolver this render resolves next is one the cache answers. */
  predicate Ready(u: Setup, y: Sys, n: Name, r: Resolver) {
    && n in u.uses && n in y.svcs && n in y.got && y.svcs[n].pc.Rendering?
    && NextUp(u.uses[n], y.got[n], r) && Served(u, y, r)
  }

  ghost predicate NobodyReady(u: Setup, y: Sys) {
    forall n, r :: !Ready(u, y, n, r)
  }

  predicate FromCache(u: Setup, y: Sys, x: SysAct) {
    x.Resolve? && Served(u, y, x.r)
  }

  /** An answer from the cache is no await, and whoever waited for the lock of a resolver goes on with its result at
      once: as long as the cache answers a render, nothing else happens. */
  ghost predicate Prompt(u: Setup, xs: seq<SysAct>) {
    if |xs| == 0 then true
    else
      var before := xs[..|xs| - 1];
      Prompt(u, before) &&
      match SysAfter(u, before)
      case None => true
      case Some(y) => NobodyReady(u, y) || FromCache(u, y, xs[|xs| - 1])
  }
}
