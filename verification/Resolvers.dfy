/** Resolver caches and generations (`Resolvers` in orchestrator/resolvers.py). */
module Resolvers {
  import opened Wrappers
  import opened Names
  import opened ResolverOutput

  datatype Refresh = PerSpawn | PerInstance

  datatype ResolverConfig = ResolverConfig(promised: seq<string>, refresh: Refresh, cacheSeconds: nat, copies: bool)

  /** The result of one successful run: a path and a content fingerprint for each promised name. */
  datatype Release = Release(binaries: map<string, string>, fingerprints: map<string, string>)

  datatype Cached = Cached(stamp: int, release: Release)

  type Runs = map<string, seq<Release>>

  /** The results in order with repetitions in a row taken once. */
  function Moves(results: seq<Release>): (moves: seq<Release>)
    ensures |moves| <= |results| && (|results| > 0 ==> |moves| > 0 && moves[|moves| - 1] == results[|results| - 1])
  {
    if |results| == 0 then []
    else
      var rest := Moves(results[..|results| - 1]);
      if |results| > 1 && results[|results| - 2] == results[|results| - 1] then rest
      else rest + [results[|results| - 1]]
  }

  /** Consecutive moves differ. */
  lemma {:induction false} MovesDiffer(results: seq<Release>, i: nat)
    requires i + 1 < |Moves(results)|
    ensures Moves(results)[i] != Moves(results)[i + 1]
  {
    var rest := results[..|results| - 1];
    if i + 1 >= |Moves(rest)| {
    } else {
      MovesDiffer(rest, i);
    }
  }

  /** Later results only add moves at the end. */
  lemma {:induction false} MovesGrow(before: seq<Release>, now: seq<Release>)
    requires before <= now
    ensures Moves(before) <= Moves(now)
    decreases |now|
  {
    if |before| < |now| {
      MovesGrow(before, now[..|now| - 1]);
    } else {
      assert before == now;
    }
  }

  /** Over a whole run the generation determines the release: whoever is given a release at one generation, at
      whatever time, is given the same one. */
  lemma GenerationDeterminesRelease(before: seq<Release>, now: seq<Release>)
    requires before <= now && |before| > 0
    ensures |Moves(before)| <= |Moves(now)|
    ensures |Moves(before)| == |Moves(now)| ==> before[|before| - 1] == now[|now| - 1]
  {
    MovesGrow(before, now);
    SameLast(Moves(before), Moves(now));
  }

  lemma SameLast(a: seq<Release>, b: seq<Release>)
    requires a <= b && |a| > 0
    ensures |a| == |b| ==> a[|a| - 1] == b[|b| - 1]
  {
  }

  function GetOr(m: map<string, nat>, r: string): nat {
    if r in m then m[r] else 0
  }

  function Get<T>(m: map<string, T>, r: string): Option<T> {
    if r in m then Some(m[r]) else None
  }

  predicate Covers(cfg: ResolverConfig, release: Release) {
    release.binaries.Keys == Elements(cfg.promised)
  }

  /** One resolver: what is cached is its last result, and its generation counts the moves. */
  ghost predicate Line(cfg: ResolverConfig, results: seq<Release>, cached: Option<Cached>, gen: nat, clock: int) {
    && (cached.None? <==> results == []) && gen == |Moves(results)|
    && (cached.Some? && |results| > 0 ==> cached.value.release == results[|results| - 1] && cached.value.stamp <= clock)
    && (cfg.refresh.PerInstance? ==> |results| <= 1)
    && forall i | 0 <= i < |results| :: Covers(cfg, results[i])
  }

  function NextGen(cached: Option<Cached>, gen: nat, r: Release): nat {
    if cached.None? || cached.value.release != r then gen + 1 else gen
  }

  lemma LineRuns(cfg: ResolverConfig, results: seq<Release>, cached: Option<Cached>, gen: nat, clock: int,
                 r: Release, now: int)
    requires Line(cfg, results, cached, gen, clock) && Covers(cfg, r) && clock <= now
    requires cached.None? || cfg.refresh.PerSpawn?
    ensures Line(cfg, results + [r], Some(Cached(now, r)), NextGen(cached, gen, r), now)
  {
    assert (results + [r])[..|results|] == results;
  }

  ghost predicate AllLines(cfgs: map<string, ResolverConfig>, results: Runs, cache: map<string, Cached>,
                           gens: map<string, nat>, clock: int) {
    && results.Keys == cfgs.Keys && cache.Keys <= cfgs.Keys
    && forall r {:trigger LineOf(cfgs, results, cache, gens, clock, r)} | r in cfgs ::
         LineOf(cfgs, results, cache, gens, clock, r)
  }

  ghost predicate LineOf(cfgs: map<string, ResolverConfig>, results: Runs, cache: map<string, Cached>,
                         gens: map<string, nat>, clock: int, r: string) {
    r in cfgs && r in results && Line(cfgs[r], results[r], Get(cache, r), GetOr(gens, r), clock)
  }

  /** Nothing has happened to `r`. */
  ghost predicate Same(results: Runs, results': Runs, cache: map<string, Cached>, cache': map<string, Cached>,
                       gens: map<string, nat>, gens': map<string, nat>, r: string) {
    Get(results, r) == Get(results', r) && Get(cache, r) == Get(cache', r) && GetOr(gens, r) == GetOr(gens', r)
  }

  /** One more result for one resolver, and nothing else. */
  lemma AllLinesRun(cfgs: map<string, ResolverConfig>, results: Runs, cache: map<string, Cached>,
                    gens: map<string, nat>, clock: int, results': Runs, cache': map<string, Cached>,
                    gens': map<string, nat>, now: int, name: string, r: Release)
    requires AllLines(cfgs, results, cache, gens, clock) && name in cfgs && Covers(cfgs[name], r) && clock <= now
    requires name !in cache || cfgs[name].refresh.PerSpawn?
    requires results'.Keys == results.Keys && cache'.Keys <= cfgs.Keys
    requires results'[name] == results[name] + [r] && Get(cache', name) == Some(Cached(now, r))
    requires GetOr(gens', name) == NextGen(Get(cache, name), GetOr(gens, name), r)
    requires forall h {:trigger Same(results, results', cache, cache', gens, gens', h)} | h in cfgs && h != name ::
               Same(results, results', cache, cache', gens, gens', h)
    ensures AllLines(cfgs, results', cache', gens', now)
  {
    assert LineOf(cfgs, results, cache, gens, clock, name);
    LineRuns(cfgs[name], results[name], Get(cache, name), GetOr(gens, name), clock, r, now);
    forall h | h in cfgs ensures LineOf(cfgs, results', cache', gens', now, h) {
      if h != name {
        assert Same(results, results', cache, cache', gens, gens', h);
        OtherLine(cfgs, results, cache, gens, clock, results', cache', gens', now, h);
      }
    }
  }

  lemma OtherLine(cfgs: map<string, ResolverConfig>, results: Runs, cache: map<string, Cached>,
                  gens: map<string, nat>, clock: int, results': Runs, cache': map<string, Cached>,
                  gens': map<string, nat>, now: int, r: string)
    requires AllLines(cfgs, results, cache, gens, clock) && r in cfgs && r in results' && clock <= now
    requires Same(results, results', cache, cache', gens, gens', r)
    ensures LineOf(cfgs, results', cache', gens', now, r)
  {
    assert LineOf(cfgs, results, cache, gens, clock, r);
  }

  ghost predicate Extends(before: Runs, now: Runs) {
    before.Keys == now.Keys && forall r {:trigger Longer(before, now, r)} | r in before :: Longer(before, now, r)
  }

  ghost predicate Longer(before: Runs, now: Runs, r: string) {
    r in before && r in now && before[r] <= now[r]
  }

  lemma ExtendsTransitive(a: Runs, b: Runs, c: Runs)
    requires Extends(a, b) && Extends(b, c)
    ensures Extends(a, c)
  {
    forall r | r in a ensures Longer(a, c, r) {
      assert Longer(a, b, r) && Longer(b, c, r);
      assert a[r] <= b[r] <= c[r];
    }
  }

  lemma ExtendsPut(before: Runs, now: Runs, r: string, release: Release)
    requires Extends(before, now) && r in now
    ensures Extends(before, now[r := now[r] + [release]])
  {
    forall h | h in before ensures Longer(before, now[r := now[r] + [release]], h) {
      assert Longer(before, now, h);
    }
  }

  lemma ExtendsSelf(a: Runs)
    ensures Extends(a, a)
  {
    forall r | r in a ensures Longer(a, a, r) {}
  }

  predicate Agrees(release: Release, own: set<string>, ctx: map<string, string>) {
    forall b | b in own :: b in ctx && b in release.binaries && ctx[b] == release.binaries[b]
  }

  /** All of `own` was drawn from one run, the last `before` or one since. */
  ghost predicate Drawn(before: seq<Release>, now: seq<Release>, own: set<string>, ctx: map<string, string>) {
    exists k | 0 <= k < |now| :: |before| <= k + 1 && Agrees(now[k], own, ctx)
  }

  lemma DrawnNow(before: seq<Release>, mid: seq<Release>, now: seq<Release>, own: set<string>, ctx: map<string, string>,
                 answer: map<string, string>)
    requires before <= mid <= now && |now| > 0 && answer == now[|now| - 1].binaries && answer.Keys == own
    ensures Drawn(before, now, own, ctx + answer) && Agrees(now[|now| - 1], own, ctx + answer)
  {
    assert |before| <= |now| - 1 + 1;
  }

  lemma DrawnStays(before: seq<Release>, mid: seq<Release>, now: seq<Release>, own: set<string>,
                   ctx: map<string, string>, answer: map<string, string>)
    requires Drawn(before, mid, own, ctx) && mid <= now && own !! answer.Keys
    ensures Drawn(before, now, own, ctx + answer)
  {
    var k :| 0 <= k < |mid| && |before| <= k + 1 && Agrees(mid[k], own, ctx);
    assert now[k] == mid[k];
    assert Agrees(now[k], own, ctx + answer);
  }

  function Own(cfgs: map<string, ResolverConfig>, r: string): set<string>
    requires r in cfgs
  {
    Elements(cfgs[r].promised)
  }

  /** No two resolvers provide the same name, and `byBin` says which provides each. */
  predicate Owned(cfgs: map<string, ResolverConfig>, byBin: map<string, string>) {
    forall r, b | r in cfgs && b in cfgs[r].promised :: b in byBin && byBin[b] == r
  }

  lemma OwnersApart(cfgs: map<string, ResolverConfig>, byBin: map<string, string>, r: string, s: string)
    requires Owned(cfgs, byBin) && r in cfgs && s in cfgs && r != s
    ensures Own(cfgs, r) !! Own(cfgs, s)
  {
    forall b | b in Own(cfgs, r) ensures b !in Own(cfgs, s) { assert b in cfgs[r].promised && byBin[b] == r; }
  }

  /** The first i resolvers of a render have answered. */
  ghost predicate DrawnTo(cfgs: map<string, ResolverConfig>, order: seq<string>, i: int, before: Runs, now: Runs,
                          ctx: map<string, string>) {
    0 <= i <= |order| && forall k {:trigger DrawnFor(cfgs, order[k], before, now, ctx)} | 0 <= k < i ::
      DrawnFor(cfgs, order[k], before, now, ctx)
  }

  ghost predicate DrawnFor(cfgs: map<string, ResolverConfig>, r: string, before: Runs, now: Runs,
                           ctx: map<string, string>) {
    r in cfgs && r in before && r in now && Drawn(before[r], now[r], Own(cfgs, r), ctx)
  }

  lemma DrawnStep(cfgs: map<string, ResolverConfig>, byBin: map<string, string>, order: seq<string>, i: int,
                  before: Runs, mid: Runs, now: Runs, ctx: map<string, string>, answer: map<string, string>)
    requires DrawnTo(cfgs, order, i, before, mid, ctx) && i < |order| && order[i] in cfgs && order[i] in before
    requires Owned(cfgs, byBin) && Ascending(order)
    requires Extends(before, mid) && Extends(mid, now)
    requires |now[order[i]]| > 0 && answer == now[order[i]][|now[order[i]]| - 1].binaries
    requires answer.Keys == Own(cfgs, order[i])
    ensures DrawnTo(cfgs, order, i + 1, before, now, ctx + answer)
  {
    var r := order[i];
    assert Longer(before, mid, r) && Longer(mid, now, r);
    forall k | 0 <= k < i + 1 ensures DrawnFor(cfgs, order[k], before, now, ctx + answer) {
      if k == i {
        DrawnNow(before[r], mid[r], now[r], Own(cfgs, r), ctx, answer);
      } else {
        assert DrawnFor(cfgs, order[k], before, mid, ctx) && Longer(mid, now, order[k]);
        assert Less(order[k], r);
        LessAsymmetric(order[k], r);
        OwnersApart(cfgs, byBin, order[k], r);
        DrawnStays(before[order[k]], mid[order[k]], now[order[k]], Own(cfgs, order[k]), ctx, answer);
      }
    }
  }

  lemma Recorded(cfgs: map<string, ResolverConfig>, results: Runs, cache: map<string, Cached>,
                 gens: map<string, nat>, clock: int, name: string, r: Release)
    requires AllLines(cfgs, results, cache, gens, clock) && name in cfgs && Covers(cfgs[name], r)
    requires name !in cache || cfgs[name].refresh.PerSpawn?
    ensures AllLines(cfgs, results[name := results[name] + [r]], cache[name := Cached(clock, r)],
                     Bumped(gens, cache, name, r), clock)
  {
    AllLinesRun(cfgs, results, cache, gens, clock, results[name := results[name] + [r]],
                cache[name := Cached(clock, r)], Bumped(gens, cache, name, r), clock, name, r);
  }

  function Bumped(gens: map<string, nat>, cache: map<string, Cached>, name: string, r: Release): map<string, nat> {
    if name !in cache || cache[name].release != r then gens[name := GetOr(gens, name) + 1] else gens
  }

  /** What running a resolver's script comes to: whether it exits cleanly in time, what it prints, and what the
      files at the paths it prints are: `stat` gives a file's fingerprint, `copy` the place and the fingerprint of a
      local copy, and None says that there is no such file. */
  datatype Script = Script(exits: bool, output: seq<string>, stat: string -> Option<string>,
                           copy: string -> Option<(string, string)>)

  /** The last run may still be used: there is one run for the instance, or it ended not long ago. */
  predicate Young(cfgs: map<string, ResolverConfig>, ran: map<string, seq<Ran>>, clock: int, r: string) {
    r in cfgs && r in ran && |ran[r]| > 0 &&
    (cfgs[r].refresh.PerInstance? || clock - ran[r][|ran[r]| - 1].at < cfgs[r].cacheSeconds)
  }

  lemma ServedIsYoung(cfgs: map<string, ResolverConfig>, space: char -> bool, ran: map<string, seq<Ran>>,
                      results: Runs, cache: map<string, Cached>, clock: int, r: string)
    requires AllCame(cfgs, space, ran, results, cache) && r in cfgs && Served(cfgs[r], Get(cache, r), clock)
    ensures Young(cfgs, ran, clock, r)
  {
    assert CameFor(cfgs, space, ran, results, cache, r);
  }

  /** A successful run: its script and when it ended. */
  datatype Ran = Ran(script: Script, at: int)

  /** The release is what the script printed: each promised name has the absolute path printed for it, or the place
      of the copy of that file, and the fingerprint of that file. */
  ghost predicate Came(cfg: ResolverConfig, space: char -> bool, script: Script, r: Release) {
    script.exits && exists out {:trigger AllFound(cfg, script, out, r)} ::
      Answers(cfg.promised, space, Meaningful(script.output, space), out) && AllFound(cfg, script, out, r)
  }

  ghost predicate AllFound(cfg: ResolverConfig, script: Script, out: map<string, string>, r: Release) {
    && r.binaries.Keys == out.Keys && r.fingerprints.Keys == out.Keys
    && forall b | b in out :: FoundAs(cfg, script, out[b], r.binaries[b], r.fingerprints[b])
  }

  predicate FoundAs(cfg: ResolverConfig, script: Script, printed: string, path: string, seal: string) {
    && |printed| > 0 && printed[0] == '/'
    && if cfg.copies then script.copy(printed) == Some((path, seal))
       else path == printed && script.stat(printed) == Some(seal)
  }

  /** A run of a script gives at most one release. */
  lemma CameOnce(cfg: ResolverConfig, space: char -> bool, script: Script, a: Release, b: Release)
    requires Came(cfg, space, script, a) && Came(cfg, space, script, b)
    ensures a == b
  {
    var lines := Meaningful(script.output, space);
    var out :| Answers(cfg.promised, space, lines, out) && AllFound(cfg, script, out, a);
    var out' :| Answers(cfg.promised, space, lines, out') && AllFound(cfg, script, out', b);
    OneReading(cfg.promised, space, lines, out, out');
    FoundOnce(cfg, script, out, a, b);
  }

  lemma FoundOnce(cfg: ResolverConfig, script: Script, out: map<string, string>, a: Release, b: Release)
    requires AllFound(cfg, script, out, a) && AllFound(cfg, script, out, b)
    ensures a == b
  {
    forall n | n in out ensures a.binaries[n] == b.binaries[n] && a.fingerprints[n] == b.fingerprints[n] {
      assert FoundAs(cfg, script, out[n], a.binaries[n], a.fingerprints[n]);
      assert FoundAs(cfg, script, out[n], b.binaries[n], b.fingerprints[n]);
    }
    assert a.binaries == b.binaries && a.fingerprints == b.fingerprints;
  }

  /** Without copies the paths are what the script's output says, word for word. */
  lemma CameUncopied(cfg: ResolverConfig, space: char -> bool, script: Script, r: Release)
    requires Came(cfg, space, script, r) && !cfg.copies
    ensures Answers(cfg.promised, space, Meaningful(script.output, space), r.binaries)
  {
    var lines := Meaningful(script.output, space);
    var out :| Answers(cfg.promised, space, lines, out) && AllFound(cfg, script, out, r);
    FoundInPlace(cfg, script, out, r);
  }

  lemma FoundInPlace(cfg: ResolverConfig, script: Script, out: map<string, string>, r: Release)
    requires AllFound(cfg, script, out, r) && !cfg.copies
    ensures r.binaries == out
  {
    forall b | b in out ensures r.binaries[b] == out[b] {
      assert FoundAs(cfg, script, out[b], r.binaries[b], r.fingerprints[b]);
    }
  }

  /** Every result is what the script of its run printed, and a resolver runs again only when what its last run gave
      has aged. */
  ghost predicate AllCame(cfgs: map<string, ResolverConfig>, space: char -> bool, ran: map<string, seq<Ran>>,
                          results: Runs, cache: map<string, Cached>) {
    ran.Keys == cfgs.Keys && results.Keys == cfgs.Keys &&
    forall r {:trigger CameFor(cfgs, space, ran, results, cache, r)} | r in cfgs ::
      CameFor(cfgs, space, ran, results, cache, r)
  }

  ghost predicate CameFor(cfgs: map<string, ResolverConfig>, space: char -> bool, ran: map<string, seq<Ran>>,
                          results: Runs, cache: map<string, Cached>, r: string) {
    r in cfgs && r in ran && r in results && CameInTurn(cfgs[r], space, ran[r], results[r], Get(cache, r))
  }

  ghost predicate CameInTurn(cfg: ResolverConfig, space: char -> bool, runs: seq<Ran>, results: seq<Release>,
                             cached: Option<Cached>) {
    && |runs| == |results| && (forall i | 0 <= i < |runs| :: Came(cfg, space, runs[i].script, results[i]))
    && (cached.None? <==> |runs| == 0) && (|runs| > 0 && cached.Some? ==> cached.value.stamp == runs[|runs| - 1].at)
    && (cfg.refresh.PerInstance? ==> |runs| <= 1)
    && forall i | 0 <= i < |runs| - 1 :: runs[i + 1].at - runs[i].at >= cfg.cacheSeconds
  }

  lemma CameAgain(cfg: ResolverConfig, space: char -> bool, runs: seq<Ran>, results: seq<Release>,
                  cached: Option<Cached>, script: Script, r: Release, now: int)
    requires CameInTurn(cfg, space, runs, results, cached) && Came(cfg, space, script, r) && !Served(cfg, cached, now)
    ensures CameInTurn(cfg, space, runs + [Ran(script, now)], results + [r], Some(Cached(now, r)))
  {
    var runs', results' := runs + [Ran(script, now)], results + [r];
    forall i | 0 <= i < |runs'| ensures Came(cfg, space, runs'[i].script, results'[i]) {
      if i < |runs| { assert runs'[i] == runs[i] && results'[i] == results[i]; }
    }
    forall i | 0 <= i < |runs'| - 1 ensures runs'[i + 1].at - runs'[i].at >= cfg.cacheSeconds {
      if i + 1 < |runs| { assert runs[i + 1].at - runs[i].at >= cfg.cacheSeconds; }
    }
  }

  lemma AllCameRun(cfgs: map<string, ResolverConfig>, space: char -> bool, ran: map<string, seq<Ran>>,
                   results: Runs, cache: map<string, Cached>, name: string, script: Script, r: Release, now: int)
    requires AllCame(cfgs, space, ran, results, cache) && name in cfgs && Came(cfgs[name], space, script, r)
    requires !Served(cfgs[name], Get(cache, name), now)
    ensures AllCame(cfgs, space, ran[name := ran[name] + [Ran(script, now)]], results[name := results[name] + [r]],
                    cache[name := Cached(now, r)])
  {
    var ran', results' := ran[name := ran[name] + [Ran(script, now)]], results[name := results[name] + [r]];
    assert CameFor(cfgs, space, ran, results, cache, name);
    CameAgain(cfgs[name], space, ran[name], results[name], Get(cache, name), script, r, now);
    forall h | h in cfgs ensures CameFor(cfgs, space, ran', results', cache[name := Cached(now, r)], h) {
      assert CameFor(cfgs, space, ran, results, cache, h);
    }
  }

  /** All of `own` is as the script of one run printed it: the last run `before`, or one since. */
  ghost predicate PrintedBy(cfg: ResolverConfig, space: char -> bool, before: seq<Release>, runs: seq<Ran>,
                            own: set<string>, ctx: map<string, string>) {
    exists k, release {:trigger Came(cfg, space, runs[k].script, release)} | 0 <= k < |runs| ::
      |before| <= k + 1 && Came(cfg, space, runs[k].script, release) && Agrees(release, own, ctx)
  }

  ghost predicate PrintedFor(cfgs: map<string, ResolverConfig>, space: char -> bool, before: Runs,
                             ran: map<string, seq<Ran>>, r: string, ctx: map<string, string>) {
    r in cfgs && r in before && r in ran && PrintedBy(cfgs[r], space, before[r], ran[r], Own(cfgs, r), ctx)
  }

  lemma DrawnPrinted(cfgs: map<string, ResolverConfig>, space: char -> bool, before: Runs,
                     ran: map<string, seq<Ran>>, results: Runs, cache: map<string, Cached>, r: string,
                     ctx: map<string, string>)
    requires AllCame(cfgs, space, ran, results, cache) && DrawnFor(cfgs, r, before, results, ctx)
    ensures PrintedFor(cfgs, space, before, ran, r, ctx)
  {
    assert CameFor(cfgs, space, ran, results, cache, r);
    var k :| 0 <= k < |results[r]| && |before[r]| <= k + 1 && Agrees(results[r][k], Own(cfgs, r), ctx);
    assert Came(cfgs[r], space, ran[r][k].script, results[r][k]);
  }

  /** The cache answers a resolution. */
  predicate Served(cfg: ResolverConfig, cached: Option<Cached>, clock: int) {
    cached.Some? && (cfg.refresh.PerInstance? || clock - cached.value.stamp < cfg.cacheSeconds)
  }

  class ResolverSet {
    const configs: map<string, ResolverConfig>
    /** Which resolver provides each name. */
    const byBin: map<string, string>
    const space: char -> bool
    var cache: map<string, Cached>
    var generation: map<string, nat>
    var clock: int
    /** What each resolver's successful runs gave, in order. */
    ghost var results: Runs
    /** Those runs. */
    ghost var ran: map<string, seq<Ran>>

    ghost predicate Valid()
      reads this
    {
      && Owned(configs, byBin) && AllLines(configs, results, cache, generation, clock)
      && AllCame(configs, space, ran, results, cache)
    }

    constructor (cfgs: map<string, ResolverConfig>, bins: map<string, string>, sp: char -> bool)
      requires Owned(cfgs, bins)
      ensures Valid() && byBin == bins && configs == cfgs && space == sp && forall r | r in results :: results[r] == []
    {
      configs, byBin, space, cache, generation, clock := cfgs, bins, sp, map[], map[], 0;
      results, ran := map r | r in cfgs :: [], map r | r in cfgs :: [];
      new;
      forall r | r in configs ensures LineOf(configs, results, cache, generation, clock, r) {}
    }

    /** One run of the script: it gives a release exactly if what it printed makes one. */
    method Run(name: string, script: Script) returns (r: Option<Release>)
      requires name in configs
      ensures r.Some? ==> Came(configs[name], space, script, r.value) && Covers(configs[name], r.value)
      ensures r.None? ==> forall release :: !Came(configs[name], space, script, release)
    {
      if !script.exits { return None; }
      var parsed := ParseOutput(configs[name].promised, script.output, space);
      if parsed.Err? { return None; }
      r := Gather(configs[name], script, parsed.value);
      forall out | Answers(configs[name].promised, space, Meaningful(script.output, space), out)
        ensures out == parsed.value
      {
        OneReading(configs[name].promised, space, Meaningful(script.output, space), out, parsed.value);
      }
      AnswersCover(configs[name].promised, Meaningful(script.output, space), parsed.value);
    }

    /** Each path is checked and its file looked at, or copied. */
    method Gather(cfg: ResolverConfig, script: Script, parsed: map<string, string>) returns (r: Option<Release>)
      ensures r.Some? ==> AllFound(cfg, script, parsed, r.value)
      ensures r.None? ==> forall release :: !AllFound(cfg, script, parsed, release)
    {
      var binaries: map<string, string>, fingerprints: map<string, string> := map[], map[];
      var todo := parsed.Keys;
      while todo != {}
        invariant todo <= parsed.Keys && binaries.Keys == fingerprints.Keys == parsed.Keys - todo
        invariant forall b | b in binaries :: FoundAs(cfg, script, parsed[b], binaries[b], fingerprints[b])
      {
        var b :| b in todo;
        var found := Find(cfg, script, parsed[b]);
        if found.None? {
          NotFound(cfg, script, parsed, b);
          return None;
        }
        binaries, fingerprints := binaries[b := found.value.0], fingerprints[b := found.value.1];
        todo := todo - {b};
      }
      r := Some(Release(binaries, fingerprints));
    }

    method Find(cfg: ResolverConfig, script: Script, printed: string) returns (r: Option<(string, string)>)
      ensures r.Some? ==> FoundAs(cfg, script, printed, r.value.0, r.value.1)
      ensures r.None? ==> forall path, seal :: !FoundAs(cfg, script, printed, path, seal)
    {
      if |printed| == 0 || printed[0] != '/' { return None; }
      if cfg.copies { return script.copy(printed); }
      var seal := script.stat(printed);
      r := if seal.Some? then Some((printed, seal.value)) else None;
    }

    lemma NotFound(cfg: ResolverConfig, script: Script, parsed: map<string, string>, b: string)
      requires b in parsed && forall path, seal :: !FoundAs(cfg, script, parsed[b], path, seal)
      ensures forall release :: !AllFound(cfg, script, parsed, release)
    {
    }

    lemma AnswersCover(promised: seq<string>, lines: seq<string>, out: map<string, string>)
      requires Answers(promised, space, lines, out)
      ensures out.Keys == Elements(promised)
    {
    }

    /** A successful run is recorded: the generation moves exactly when the result differs from the last. */
    method Record(name: string, r: Release, ghost script: Script)
      requires Valid() && name in configs && Covers(configs[name], r) && Came(configs[name], space, script, r)
      requires !Served(configs[name], Get(cache, name), clock)
      modifies this`cache, this`generation, this`results, this`ran
      ensures Valid() && results == old(results)[name := old(results)[name] + [r]]
      ensures ran == old(ran)[name := old(ran)[name] + [Ran(script, clock)]]
      ensures cache == old(cache)[name := Cached(clock, r)]
      ensures generation == Bumped(old(generation), old(cache), name, r)
    {
      Recorded(configs, results, cache, generation, clock, name, r);
      AllCameRun(configs, space, ran, results, cache, name, script, r, clock);
      Bump(name, r);
      cache := cache[name := Cached(clock, r)];
      results := results[name := results[name] + [r]];
      ran := ran[name := ran[name] + [Ran(script, clock)]];
    }

    method Bump(name: string, r: Release)
      modifies this`generation
      ensures generation == Bumped(old(generation), cache, name, r)
    {
      if name !in cache || cache[name].release != r {
        generation := generation[name := GetOr(generation, name) + 1];
      }
    }

    method Wait()
      requires Valid()
      modifies this`clock
      ensures Valid() && clock >= old(clock)
    {
      var later :| later >= 0;
      forall r | r in configs ensures LineOf(configs, results, cache, generation, clock + later, r) {
        assert LineOf(configs, results, cache, generation, clock, r);
      }
      clock := clock + later;
    }

    /** Whatever other tasks do at an await: time passes, and resolvers whose lock is free are resolved. */
    method OtherTasks(locked: set<string>)
      requires Valid()
      modifies this
      ensures Valid() && Extends(old(results), results) && clock >= old(clock)
      ensures forall r | r in locked ::
                Same(old(results), results, old(cache), cache, old(generation), generation, r) &&
                Get(ran, r) == Get(old(ran), r)
    {
      var n :| n >= 0;
      ExtendsSelf(results);
      while n > 0
        invariant Valid() && Extends(old(results), results) && clock >= old(clock)
        invariant forall r | r in locked ::
                    Same(old(results), results, old(cache), cache, old(generation), generation, r) &&
                    Get(ran, r) == Get(old(ran), r)
        decreases n
      {
        Wait();
        OneOther(locked, old(results));
        n := n - 1;
      }
    }

    method OneOther(locked: set<string>, ghost start: Runs)
      requires Valid() && Extends(start, results)
      modifies this`cache, this`generation, this`results, this`ran
      ensures Valid() && Extends(start, results)
      ensures forall r | r in locked ::
                Same(old(results), results, old(cache), cache, old(generation), generation, r) &&
                Get(ran, r) == Get(old(ran), r)
    {
      var free := set r | r in configs && r !in locked && !Served(configs[r], Get(cache, r), clock);
      if free != {} {
        var r :| r in free;
        var script: Script := *;
        var release := Run(r, script);
        if release.Some? {
          ExtendsPut(start, results, r, release.value);
          Record(r, release.value, script);
        }
      }
    }

    /** `_resolve`, under the resolver's lock. A failure changes nothing; from the cache comes what the cache holds;
        otherwise the script is run, what it printed is the answer and the resolver's last result, and its generation
        is the number of times that result has moved. */
    method Resolve(name: string, script: Script) returns (r: Option<map<string, string>>)
      requires Valid() && name in configs
      modifies this
      ensures Valid() && Extends(old(results), results)
      ensures r.None? ==> Same(old(results), results, old(cache), cache, old(generation), generation, name)
      ensures r.Some? ==>
                && |results[name]| > 0 && r.value == results[name][|results[name]| - 1].binaries
                && GetOr(generation, name) == |Moves(results[name])|
                && r.value.Keys == Elements(configs[name].promised)
      ensures if Served(configs[name], Get(old(cache), name), old(clock))
              then r == Some(old(cache)[name].release.binaries) && results == old(results) && ran == old(ran) &&
                   Young(configs, ran, clock, name)
              else r.Some? <==> exists release :: Came(configs[name], space, script, release)
      ensures !Served(configs[name], Get(old(cache), name), old(clock)) && r.Some? ==> exists release ::
                && Came(configs[name], space, script, release) && r.value == release.binaries
                && results[name] == old(results)[name] + [release] && ran[name] == old(ran)[name] + [Ran(script, clock)]
                && Get(cache, name) == Some(Cached(clock, release))
    {
      assert LineOf(configs, results, cache, generation, clock, name);
      ExtendsSelf(results);
      if name in cache && (configs[name].refresh.PerInstance? || clock - cache[name].stamp < configs[name].cacheSeconds) {
        ServedIsYoung(configs, space, ran, results, cache, clock, name);
        return Some(cache[name].release.binaries);
      }
      OtherTasks({name});
      ghost var free := results;
      var release := Refresh(name, script);
      if release.None? { return None; }
      ExtendsPut(old(results), free, name, release.value);
      r := Some(release.value.binaries);
    }

    /** A run, and what is recorded of it. */
    method Refresh(name: string, script: Script) returns (r: Option<Release>)
      requires Valid() && name in configs && !Served(configs[name], Get(cache, name), clock)
      modifies this`cache, this`generation, this`results, this`ran
      ensures Valid()
      ensures r.Some? ==>
                && Came(configs[name], space, script, r.value) && r.value.binaries.Keys == Own(configs, name)
                && results == old(results)[name := old(results)[name] + [r.value]]
                && ran == old(ran)[name := old(ran)[name] + [Ran(script, clock)]]
                && Get(cache, name) == Some(Cached(clock, r.value)) && GetOr(generation, name) == |Moves(results[name])|
      ensures r.None? ==> results == old(results) && cache == old(cache) && generation == old(generation)
      ensures r.None? ==> forall release :: !Came(configs[name], space, script, release)
    {
      r := Run(name, script);
      if r.Some? {
        Record(name, r.value, script);
        assert LineOf(configs, results, cache, generation, clock, name);
      }
    }

    /** One resolver's turn in a render. */
    method Ask(name: string, script: Script) returns (r: Option<map<string, string>>)
      requires Valid() && name in configs
      modifies this
      ensures Valid() && Extends(old(results), results)
      ensures r.Some? ==> r.value.Keys == Own(configs, name) && |results[name]| > 0 &&
                          r.value == results[name][|results[name]| - 1].binaries
      ensures r.None? ==> forall release :: !Came(configs[name], space, script, release)
    {
      OtherTasks({});
      ghost var free := results;
      r := Resolve(name, script);
      ExtendsTransitive(old(results), free, results);
    }

    /** `context_for`: the resolvers are asked one after the other. Each gives all its names as the script of one of
        its own runs printed them, at latest the run it ended on; with a single resolver that is the run its
        generation counts when the render goes on, with several an earlier one may have moved on while a later one
        was running. Nothing else is given. */
    method ContextFor(resolvers: set<string>, scripts: string -> Script) returns (r: Option<map<string, string>>)
      requires Valid() && resolvers <= configs.Keys
      modifies this
      ensures Valid() && Extends(old(results), results)
      ensures r.Some? ==> forall n | n in resolvers :: PrintedFor(configs, space, old(results), ran, n, r.value)
      ensures r.Some? ==> OnlyTheirs(byBin, resolvers, r.value)
      ensures r.None? ==> exists n :: n in resolvers && forall release :: !Came(configs[n], space, scripts(n), release)
      ensures r.Some? && |resolvers| == 1 ==> forall n | n in resolvers ::
                LastPrinted(configs, space, ran, results, generation, n, r.value)
    {
      var order := SortNames(resolvers);
      SortedUnique(resolvers, order, order);
      var ctx: map<string, string> := map[];
      ExtendsSelf(results);
      var i := 0;
      while i < |order|
        invariant Valid() && Extends(old(results), results)
        invariant RenderedTo(configs, byBin, resolvers, order, i, old(results), results, ctx)
      {
        var name := order[i];
        assert name in Elements(order);
        ghost var mid := results;
        var binaries := Ask(name, scripts(name));
        ExtendsTransitive(old(results), mid, results);
        if binaries.None? { return None; }
        RenderedStep(configs, byBin, resolvers, order, i, old(results), mid, results, ctx, binaries.value);
        ctx := ctx + binaries.value;
        i := i + 1;
      }
      AllPrinted(configs, space, ran, results, cache, resolvers, order, old(results), ctx);
      if |resolvers| == 1 {
        assert order[0] in Elements(order);
        LastIsPrinted(configs, space, ran, results, cache, generation, clock, order[0], ctx);
        assert forall n | n in resolvers :: n in Elements(order) && n == order[0];
      }
      r := Some(ctx);
    }
  }

  /** The script of the last run printed all of the resolver's names so, and the generation counts that run. */
  ghost predicate LastPrinted(cfgs: map<string, ResolverConfig>, space: char -> bool, ran: map<string, seq<Ran>>,
                              results: Runs, gens: map<string, nat>, n: string, ctx: map<string, string>) {
    n in cfgs && n in ran && n in results && |ran[n]| == |results[n]| > 0 &&
    Came(cfgs[n], space, ran[n][|ran[n]| - 1].script, results[n][|results[n]| - 1]) &&
    Agrees(results[n][|results[n]| - 1], Own(cfgs, n), ctx) && GetOr(gens, n) == |Moves(results[n])|
  }

  lemma LastIsPrinted(cfgs: map<string, ResolverConfig>, space: char -> bool, ran: map<string, seq<Ran>>,
                      results: Runs, cache: map<string, Cached>, gens: map<string, nat>, clock: int, n: string,
                      ctx: map<string, string>)
    requires AllCame(cfgs, space, ran, results, cache) && AllLines(cfgs, results, cache, gens, clock) && n in cfgs
    requires LastAgrees(results, n, Own(cfgs, n), ctx)
    ensures LastPrinted(cfgs, space, ran, results, gens, n, ctx)
  {
    assert CameFor(cfgs, space, ran, results, cache, n) && LineOf(cfgs, results, cache, gens, clock, n);
  }

  lemma AllPrinted(cfgs: map<string, ResolverConfig>, space: char -> bool, ran: map<string, seq<Ran>>,
                   results: Runs, cache: map<string, Cached>, resolvers: set<string>, order: seq<string>, before: Runs,
                   ctx: map<string, string>)
    requires AllCame(cfgs, space, ran, results, cache) && Elements(order) == resolvers
    requires DrawnTo(cfgs, order, |order|, before, results, ctx)
    ensures forall n | n in resolvers :: PrintedFor(cfgs, space, before, ran, n, ctx)
  {
    forall n | n in resolvers ensures PrintedFor(cfgs, space, before, ran, n, ctx) {
      assert n in Elements(order);
      var k :| 0 <= k < |order| && order[k] == n;
      assert DrawnFor(cfgs, order[k], before, results, ctx);
      DrawnPrinted(cfgs, space, before, ran, results, cache, n, ctx);
    }
  }

  /** How far a render has come: the first i resolvers have answered, and only they. */
  ghost predicate RenderedTo(cfgs: map<string, ResolverConfig>, byBin: map<string, string>, resolvers: set<string>,
                             order: seq<string>, i: int, before: Runs, now: Runs, ctx: map<string, string>) {
    && DrawnTo(cfgs, order, i, before, now, ctx)
    && (i == 1 ==> order[0] in cfgs && LastAgrees(now, order[0], Own(cfgs, order[0]), ctx))
    && OnlyTheirs(byBin, resolvers, ctx)
  }

  predicate OnlyTheirs(byBin: map<string, string>, resolvers: set<string>, ctx: map<string, string>) {
    forall b | b in ctx :: b in byBin && byBin[b] in resolvers
  }

  lemma RenderedStep(cfgs: map<string, ResolverConfig>, byBin: map<string, string>, resolvers: set<string>,
                     order: seq<string>, i: int, before: Runs, mid: Runs, now: Runs, ctx: map<string, string>,
                     answer: map<string, string>)
    requires RenderedTo(cfgs, byBin, resolvers, order, i, before, mid, ctx) && i < |order|
    requires order[i] in cfgs && order[i] in before && order[i] in resolvers
    requires Owned(cfgs, byBin) && Ascending(order)
    requires Extends(before, mid) && Extends(mid, now)
    requires |now[order[i]]| > 0 && answer == now[order[i]][|now[order[i]]| - 1].binaries
    requires answer.Keys == Own(cfgs, order[i])
    ensures RenderedTo(cfgs, byBin, resolvers, order, i + 1, before, now, ctx + answer)
  {
    DrawnStep(cfgs, byBin, order, i, before, mid, now, ctx, answer);
    OwnsAll(cfgs, byBin, order[i]);
  }

  lemma OwnsAll(cfgs: map<string, ResolverConfig>, byBin: map<string, string>, r: string)
    requires Owned(cfgs, byBin) && r in cfgs
    ensures forall b | b in Own(cfgs, r) :: b in byBin && byBin[b] == r
  {
    forall b | b in Own(cfgs, r) ensures b in byBin && byBin[b] == r { assert b in cfgs[r].promised; }
  }

  ghost predicate LastAgrees(results: Runs, r: string, own: set<string>, ctx: map<string, string>) {
    r in results && |results[r]| > 0 && Agrees(results[r][|results[r]| - 1], own, ctx)
  }
}
