/** `Supervisor._enforce_pinning` as it runs: two nested loops that create bounce tasks. */
module SupervisorObject {
  import opened SupervisorModel

  /** The pairs a call for `n` has looked at: resolvers outside `rs`, and for resolver `r` the siblings
      outside `os`. */
  ghost predicate Examined(u: Setup, rec: map<Name, Gens>, n: Name, gens: Gens, rs: set<Resolver>,
                           r: Resolver, os: set<Name>, wave: seq<Task>) {
    && (forall t :: t in wave <==>
          NeedsBounce(u, rec, n, gens, t) && (t.resolver !in rs || (t.resolver == r && t.target !in os)))
    && (forall i, j | 0 <= i < j < |wave| :: wave[i] != wave[j])
  }

  class Supervisor {
    const setup: Setup
    var spawnGens: map<Name, Gens>
    var bounceTasks: seq<Task>

    constructor (u: Setup)
      ensures setup == u && spawnGens == map[] && bounceTasks == []
    {
      setup, spawnGens, bounceTasks := u, map[], [];
    }

    /** One resolver: every sibling recorded on another generation of it gets a task. */
    method BounceSiblings(n: Name, gens: Gens, r: Resolver, ghost rec: map<Name, Gens>, ghost rs: set<Resolver>, wave: seq<Task>)
        returns (wave': seq<Task>)
      requires r in gens && r in setup.pinned && r in rs && n in spawnGens
      requires forall o | o != n :: (o in rec <==> o in spawnGens) && (o in rec ==> rec[o] == spawnGens[o])
      requires Examined(setup, rec, n, gens, rs, r, spawnGens.Keys, wave)
      ensures Examined(setup, rec, n, gens, rs, r, {}, wave')
    {
      wave' := wave;
      var others := spawnGens.Keys;
      while others != {}
        invariant others <= spawnGens.Keys && Examined(setup, rec, n, gens, rs, r, others, wave')
        decreases |others|
      {
        var o :| o in others;
        if o != n && r in spawnGens[o] && spawnGens[o][r] != gens[r] {
          assert Task(o, r) !in wave';
          wave' := wave' + [Task(o, r)];
        }
        others := others - {o};
      }
    }

    /** Records the generations and bounces every sibling on an older one: each needed pair exactly once. */
    method EnforcePinning(n: Name, gens: Gens) returns (ghost wave: seq<Task>)
      modifies this
      ensures spawnGens == old(spawnGens)[n := gens]
      ensures IsWave(setup, old(spawnGens), n, gens, wave)
      ensures bounceTasks == old(bounceTasks) + wave
    {
      spawnGens := spawnGens[n := gens];
      var created: seq<Task> := [];
      var rs := gens.Keys;
      while rs != {}
        invariant rs <= gens.Keys && spawnGens == old(spawnGens)[n := gens] && bounceTasks == old(bounceTasks)
        invariant forall r | r in rs :: Examined(setup, old(spawnGens), n, gens, rs, r, spawnGens.Keys, created)
        invariant rs == {} ==> IsWave(setup, old(spawnGens), n, gens, created)
        decreases |rs|
      {
        var r :| r in rs;
        if r in setup.pinned {
          created := BounceSiblings(n, gens, r, old(spawnGens), rs, created);
        }
        assert forall t :: t in created <==>
          NeedsBounce(setup, old(spawnGens), n, gens, t) && t.resolver !in rs - {r};
        rs := rs - {r};
      }
      bounceTasks := bounceTasks + created;
      wave := created;
    }
  }
}
