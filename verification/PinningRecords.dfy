/** What a service was given against what is recorded for it: resolving several resolvers takes several waits, and
    the generations are read only after the last of them. */
module PinningRecords {
  import opened Names
  import opened Wrappers
  import opened ServiceModel
  import opened SupervisorModel
  import opened Pinning

  /** No other service resolves `r`. */
  predicate OnlyUser(u: Setup, n: Name, r: Resolver) {
    forall m | m in u.uses && m != n :: r !in u.uses[m]
  }

  /** `r` comes last in sorted order. */
  predicate Final(uses: set<Resolver>, r: Resolver) {
    forall q | q in uses && q != r :: Less(q, r)
  }

  /** Nobody can move a resolver of `n` after `n` resolved it and before `n` recorded it: it is refreshed once an
      instance, or nobody else uses it, or it is the last one `n` resolves. */
  predicate Steady(u: Setup, n: Name)
    requires n in u.uses
  {
    forall r | r in u.uses[n] :: r in u.once || OnlyUser(u, n, r) || Final(u.uses[n], r)
  }

  /** What is recorded for the last render of `n` is what it was given. */
  predicate Agrees(y: Sys, n: Name) {
    n in y.rec ==> n in y.used && y.used[n] == y.rec[n]
  }

  // ---- A render under way ------------------------------------------------------------------------------

  /** What has been resolved so far comes before the rest, and cannot have moved if it is kept or used by nobody
      else. */
  predicate Underway(u: Setup, n: Name, got: Gens, gen: Gens)
    requires n in u.uses
  {
    && got.Keys <= u.uses[n]
    && (forall p, q | p in got && q in u.uses[n] && q !in got :: Less(p, q))
    && forall p | p in got && (p in u.once || OnlyUser(u, n, p)) :: got[p] == Gen(gen, p) > 0
  }

  predicate Kept(u: Setup, y: Sys, n: Name)
    requires n in u.uses
  {
    n in y.got && Underway(u, n, y.got[n], y.gen) && Agrees(y, n)
  }

  lemma OwnResolve(u: Setup, n: Name, got: Gens, gen: Gens, r: Resolver, changed: bool)
    requires n in u.uses && Underway(u, n, got, gen) && NextUp(u.uses[n], got, r) && MayMove(u, gen, r, changed)
    ensures var gen' := Resolved(gen, r, changed); Underway(u, n, got[r := Gen(gen', r)], gen')
  {
  }

  lemma OthersResolve(u: Setup, n: Name, m: Name, got: Gens, gen: Gens, r: Resolver, changed: bool)
    requires n in u.uses && m in u.uses && m != n && Underway(u, n, got, gen) && r in u.uses[m]
    requires MayMove(u, gen, r, changed)
    ensures Underway(u, n, got, Resolved(gen, r, changed))
  {
    assert !OnlyUser(u, n, r);
  }

  /** When the last resolver is resolved, what was given is what is recorded. */
  lemma CompletesSteady(u: Setup, n: Name, got: Gens, gen: Gens, r: Resolver, changed: bool)
    requires n in u.uses && Steady(u, n) && Underway(u, n, got, gen) && NextUp(u.uses[n], got, r)
    requires got.Keys + {r} == u.uses[n]
    ensures var gen' := Resolved(gen, r, changed); got[r := Gen(gen', r)] == Recorded(u, gen', n)
  {
    var gen' := Resolved(gen, r, changed);
    forall p | p in u.uses[n] && p != r ensures got[p] == Gen(gen', p) {
      assert Less(p, r);
      LessAsymmetric(p, r);
    }
  }

  lemma ResolveKept(u: Setup, y: Sys, x: SysAct, n: Name)
    requires n in u.uses && Steady(u, n) && Kept(u, y, n) && x.Resolve? && Can(u, y, x)
    ensures Kept(u, SysStep(u, y, x), n)
  {
    if x.n != n {
      OthersResolve(u, n, x.n, y.got[n], y.gen, x.r, x.changed);
    } else {
      OwnResolve(u, n, y.got[n], y.gen, x.r, x.changed);
      var gen := Resolved(y.gen, x.r, x.changed);
      var got := y.got[n][x.r := Gen(gen, x.r)];
      assert got.Keys == y.got[n].Keys + {x.r};
      if got.Keys == u.uses[n] { CompletesSteady(u, n, y.got[n], y.gen, x.r, x.changed); }
    }
  }

  lemma StepKept(u: Setup, y: Sys, x: SysAct, n: Name)
    requires n in u.uses && Steady(u, n) && Kept(u, y, n) && Can(u, y, x)
    ensures Kept(u, SysStep(u, y, x), n)
  {
    match x
    case Local(_, _) =>
    case Resolve(_, _, _, _, _) => ResolveKept(u, y, x, n);
    case ResolveFails(_) =>
    case RenderPlain(_, _) =>
    case RunTask(_) =>
    case Pass(_) =>
  }

  /** A service none of whose resolvers can move under it is recorded on exactly what it was given, over every run. */
  lemma {:induction false} SteadyAgrees(u: Setup, xs: seq<SysAct>, n: Name)
    requires u.uses.Keys == u.services.Keys && n in u.uses && Steady(u, n) && SysAfter(u, xs).Some?
    ensures Kept(u, SysAfter(u, xs).value, n)
  {
    if |xs| == 0 {
    } else {
      SteadyAgrees(u, xs[..|xs| - 1], n);
      StepKept(u, SysAfter(u, xs[..|xs| - 1]).value, xs[|xs| - 1], n);
    }
  }
}
