/** `start_order` (orchestrator/config.py): Kahn's algorithm over the `after` lists. */
module StartOrder {
  import opened Wrappers
  import opened Names

  /** Service name to the names in its `after` list. */
  type Graph = map<string, seq<string>>

  function Deps(g: Graph, n: string): set<string> {
    if n in g then Elements(g[n]) else {}
  }

  predicate Edge(g: Graph, n: string, d: string) {
    d in Deps(g, n)
  }

  /** What `_validate` checks before it asks for an order. */
  ghost predicate Closed(g: Graph) {
    forall n, d | Edge(g, n, d) :: d in g
  }

  ghost predicate Distinct(order: seq<string>) {
    forall i, j | 0 <= i < j < |order| :: order[i] != order[j]
  }

  ghost predicate DepsFirst(g: Graph, order: seq<string>) {
    forall i | 0 <= i < |order| :: Deps(g, order[i]) <= Elements(order[..i])
  }

  /** Each service once, and only after everything in its `after` list. */
  ghost predicate Topological(g: Graph, order: seq<string>) {
    Elements(order) == g.Keys && Distinct(order) && DepsFirst(g, order)
  }

  ghost predicate IsWalk(g: Graph, p: seq<string>) {
    |p| > 0 && forall i | 0 <= i < |p| - 1 :: Edge(g, p[i], p[i + 1])
  }

  /** A closed walk along `after` edges. */
  ghost predicate IsCycle(g: Graph, p: seq<string>) {
    IsWalk(g, p) && |p| > 1 && p[0] == p[|p| - 1]
  }

  ghost predicate Blocked(g: Graph, rest: set<string>, n: string) {
    exists d :: Edge(g, n, d) && (d in rest || d !in g)
  }

  /** A nonempty set of services none of which can ever become ready. */
  ghost predicate Stuck(g: Graph, rest: set<string>) {
    rest != {} && rest <= g.Keys && forall n {:trigger Blocked(g, rest, n)} | n in rest :: Blocked(g, rest, n)
  }

  /** The services Kahn's algorithm takes next. */
  function Wave(g: Graph, done: set<string>): set<string> {
    set n | n in g && n !in done && Deps(g, n) <= done
  }

  /** `order` consists of whole waves, each in ascending order. */
  ghost predicate WaveOrder(g: Graph, done: set<string>, order: seq<string>)
    decreases |order|
  {
    |order| == 0 || exists k :: WaveSplit(g, done, order, k) && WaveOrder(g, done + Wave(g, done), order[k..])
  }

  ghost predicate WaveSplit(g: Graph, done: set<string>, order: seq<string>, k: int) {
    0 < k <= |order| && IsSorted(Wave(g, done), order[..k])
  }

  lemma WaveFirst(g: Graph, done: set<string>, wave: seq<string>, rest: seq<string>)
    requires |wave| > 0 && IsSorted(Wave(g, done), wave) && WaveOrder(g, done + Wave(g, done), rest)
    ensures WaveOrder(g, done, wave + rest)
  {
    var all, k := wave + rest, |wave|;
    assert all[..k] == wave && all[k..] == rest;
    assert WaveSplit(g, done, all, k);
  }

  lemma WaveTaken(done: set<string>, wave: set<string>, order: seq<string>, k: nat)
    requires k <= |order| && Elements(order[..k]) == wave
    ensures done + wave + Elements(order[k..]) == done + Elements(order)
  {
    assert order == order[..k] + order[k..];
    ElementsAppend(order[..k], order[k..]);
  }

  lemma CutAndAppend(order: seq<string>, k: nat, more: seq<string>)
    requires k <= |order|
    ensures order + more == order[..k] + (order[k..] + more)
  {
  }

  lemma {:induction false} WaveOrderGrows(g: Graph, done: set<string>, order: seq<string>, more: seq<string>)
    requires WaveOrder(g, done, order) && |more| > 0
    requires IsSorted(Wave(g, done + Elements(order)), more)
    ensures WaveOrder(g, done, order + more)
    decreases |order|
  {
    if |order| == 0 {
      assert order + more == more + [] && done + Elements(order) == done;
      WaveFirst(g, done, more, []);
    } else {
      var k :| WaveSplit(g, done, order, k) && WaveOrder(g, done + Wave(g, done), order[k..]);
      WaveTaken(done, Wave(g, done), order, k);
      WaveOrderGrows(g, done + Wave(g, done), order[k..], more);
      WaveFirst(g, done, order[..k], order[k..] + more);
      CutAndAppend(order, k, more);
    }
  }

  /** Appending a wave to an order. */
  lemma DistinctGrows(order: seq<string>, wave: seq<string>)
    requires Distinct(order) && Ascending(wave) && Elements(order) !! Elements(wave)
    ensures Distinct(order + wave)
  {
    var all := order + wave;
    forall i, j | 0 <= i < j < |all| ensures all[i] != all[j] {
      if |order| <= i { LessAsymmetric(wave[i - |order|], wave[j - |order|]); }
      else if |order| <= j { assert wave[j - |order|] in Elements(wave) && order[i] in Elements(order); }
    }
  }

  lemma DepsFirstGrows(g: Graph, order: seq<string>, wave: seq<string>)
    requires DepsFirst(g, order) && forall n | n in Elements(wave) :: Deps(g, n) <= Elements(order)
    ensures DepsFirst(g, order + wave)
  {
    var all := order + wave;
    forall i | 0 <= i < |all| ensures Deps(g, all[i]) <= Elements(all[..i]) {
      if i < |order| {
        assert all[..i] == order[..i];
      } else {
        assert all[i] in Elements(wave);
        assert all[..i] == order + wave[..i - |order|];
        ElementsAppend(order, wave[..i - |order|]);
      }
    }
  }

  /** What `remaining` holds while `done` has been taken. */
  ghost predicate Left(g: Graph, remaining: map<string, set<string>>, done: set<string>) {
    && remaining.Keys == g.Keys - done && done <= g.Keys
    && (forall n | n in remaining :: remaining[n] == Deps(g, n) - done)
  }

  ghost predicate Progress(g: Graph, remaining: map<string, set<string>>, order: seq<string>) {
    Left(g, remaining, Elements(order)) && Distinct(order) && DepsFirst(g, order) && WaveOrder(g, {}, order)
  }

  function Free(remaining: map<string, set<string>>): set<string> {
    set n | n in remaining && |remaining[n]| == 0
  }

  function Prune(remaining: map<string, set<string>>, ready: set<string>): map<string, set<string>> {
    map n | n in remaining && n !in ready :: remaining[n] - ready
  }

  lemma FreeIsWave(g: Graph, remaining: map<string, set<string>>, order: seq<string>)
    requires Progress(g, remaining, order)
    ensures Free(remaining) == Wave(g, {} + Elements(order))
  {
    forall n ensures n in Free(remaining) <==> n in Wave(g, {} + Elements(order)) {
      if n in remaining {
        assert forall d | d in Deps(g, n) :: d in Elements(order) || d in remaining[n];
        assert |remaining[n]| == 0 ==> remaining[n] == {};
        assert Deps(g, n) <= Elements(order) ==> remaining[n] == {};
      }
    }
  }

  lemma LeftPrune(g: Graph, remaining: map<string, set<string>>, done: set<string>, ready: set<string>)
    requires Left(g, remaining, done) && ready <= remaining.Keys
    ensures Left(g, Prune(remaining, ready), done + ready)
    ensures Prune(remaining, ready).Keys == remaining.Keys - ready
  {
  }

  lemma ProgressStep(g: Graph, remaining: map<string, set<string>>, order: seq<string>, ready: seq<string>)
    requires Progress(g, remaining, order) && IsSorted(Free(remaining), ready) && |ready| > 0
    ensures Progress(g, Prune(remaining, Free(remaining)), order + ready)
    ensures |Prune(remaining, Free(remaining)).Keys| < |remaining.Keys|
  {
    FreeIsWave(g, remaining, order);
    LeftPrune(g, remaining, Elements(order), Free(remaining));
    ElementsAppend(order, ready);
    DistinctGrows(order, ready);
    DepsFirstGrows(g, order, ready);
    WaveOrderGrows(g, {}, order, ready);
    FirstIn(ready);
    Shrinks(Prune(remaining, Free(remaining)).Keys, remaining.Keys, ready[0]);
  }

  lemma Shrinks(a: set<string>, b: set<string>, x: string)
    requires a <= b && x in b && x !in a
    ensures |a| < |b|
  {
    Subsets(a, b - {x});
  }

  lemma {:induction false} Subsets(a: set<string>, b: set<string>)
    requires a <= b
    ensures |a| <= |b|
  {
    if a == {} {
    } else {
      var x :| x in a;
      Subsets(a - {x}, b - {x});
    }
  }

  lemma NothingFree(g: Graph, remaining: map<string, set<string>>, order: seq<string>)
    requires Progress(g, remaining, order) && |remaining| > 0 && Free(remaining) == {}
    ensures Stuck(g, remaining.Keys)
  {
    assert remaining.Keys != {};
    forall n | n in remaining.Keys ensures Blocked(g, remaining.Keys, n) {
      assert n !in Free(remaining);
      var d :| d in remaining[n];
      assert Edge(g, n, d);
    }
  }

  /** On success the order is the wave order, every service exactly once and after its dependencies; on
      failure the reported names are a set in which every service waits for another of them (or for a name
      no service has). */
  method ComputeStartOrder(g: Graph) returns (r: Result<seq<string>, set<string>>)
    ensures r.Ok? ==> Topological(g, r.value) && WaveOrder(g, {}, r.value)
    ensures r.Err? ==> Stuck(g, r.error)
  {
    var remaining := map n | n in g :: Elements(g[n]);
    var order: seq<string> := [];
    NothingTaken(g, remaining);
    while |remaining| > 0
      invariant Progress(g, remaining, order)
      decreases |remaining.Keys|
    {
      var ready := SortNames(Free(remaining));
      if |ready| == 0 {
        assert Free(remaining) == {};
        NothingFree(g, remaining, order);
        return Err(remaining.Keys);
      }
      ProgressStep(g, remaining, order, ready);
      order := order + ready;
      remaining := Prune(remaining, Free(remaining));
    }
    assert remaining.Keys == {};
    return Ok(order);
  }

  lemma NothingTaken(g: Graph, remaining: map<string, set<string>>)
    requires remaining == map n | n in g :: Elements(g[n])
    ensures Progress(g, remaining, [])
  {
    assert Elements<string>([]) == {};
  }

  // ---- Cycles --------------------------------------------------------------------------------------

  lemma WalkTail(g: Graph, p: seq<string>)
    requires IsWalk(g, p) && |p| > 1
    ensures IsWalk(g, p[1..]) && Edge(g, p[0], p[1])
  {
    forall k | 0 <= k < |p[1..]| - 1 ensures Edge(g, p[1..][k], p[1..][k + 1]) {
      assert Edge(g, p[k + 1], p[k + 1 + 1]);
    }
    assert Edge(g, p[0], p[0 + 1]);
  }

  /** An order excludes cycles: positions fall along every edge. */
  lemma {:induction false} PositionsFall(g: Graph, order: seq<string>, p: seq<string>, i: nat) returns (j: nat)
    requires DepsFirst(g, order) && IsWalk(g, p) && |p| > 1 && i < |order| && order[i] == p[0]
    ensures j < i && order[j] == p[|p| - 1]
    decreases |p|
  {
    WalkTail(g, p);
    assert p[1] in Elements(order[..i]);
    j :| 0 <= j < i && order[..i][j] == p[1];
    if |p| == 2 {
    } else {
      j := PositionsFall(g, order, p[1..], j);
    }
  }

  lemma OrderExcludesCycles(g: Graph, order: seq<string>, p: seq<string>)
    requires Topological(g, order)
    ensures !IsCycle(g, p)
  {
    if IsCycle(g, p) {
      WalkTail(g, p);
      assert p[0] in Elements(order);
      var i :| 0 <= i < |order| && order[i] == p[0];
      var j := PositionsFall(g, order, p, i);
    }
  }

  /** Following stuck services for n steps. */
  lemma {:induction false} StuckWalk(g: Graph, rest: set<string>, n: nat) returns (p: seq<string>)
    requires Closed(g) && Stuck(g, rest)
    ensures |p| == n + 1 && IsWalk(g, p) && Elements(p) <= rest
  {
    if n == 0 {
      var x :| x in rest;
      p := [x];
    } else {
      var q := StuckWalk(g, rest, n - 1);
      assert q[n - 1] in Elements(q);
      assert Blocked(g, rest, q[n - 1]);
      var d :| Edge(g, q[n - 1], d) && (d in rest || d !in g);
      p := q + [d];
    }
  }

  lemma {:induction false} Pigeonhole(rest: set<string>, p: seq<string>) returns (i: nat, j: nat)
    requires |p| > |rest| && Elements(p) <= rest
    ensures i < j < |p| && p[i] == p[j]
  {
    var last := p[|p| - 1];
    var q := p[..|p| - 1];
    if last in q {
      i :| 0 <= i < |q| && q[i] == last;
      j := |p| - 1;
    } else {
      assert p[|p| - 1] in Elements(p) && p == q + [last];
      i, j := Pigeonhole(rest - {last}, q);
    }
  }

  /** A stuck set of known services contains an actual cycle. */
  lemma StuckHasCycle(g: Graph, rest: set<string>) returns (c: seq<string>)
    requires Closed(g) && Stuck(g, rest)
    ensures IsCycle(g, c) && Elements(c) <= rest
  {
    var p := StuckWalk(g, rest, |rest|);
    var i, j := Pigeonhole(rest, p);
    c := p[i..j + 1];
    SubWalk(g, p, i, j);
  }

  lemma SubWalk(g: Graph, p: seq<string>, i: nat, j: nat)
    requires IsWalk(g, p) && i <= j < |p|
    ensures IsWalk(g, p[i..j + 1]) && Elements(p[i..j + 1]) <= Elements(p)
  {
    var c := p[i..j + 1];
    forall k | 0 <= k < |c| - 1 ensures Edge(g, c[k], c[k + 1]) {
      assert Edge(g, p[i + k], p[i + k + 1]);
    }
    assert p == p[..i] + c + p[j + 1..];
  }

  ghost predicate HasCycleIn(g: Graph, rest: set<string>) {
    exists c :: IsCycle(g, c) && Elements(c) <= rest
  }

  /** For validated configurations `start_order` raises exactly when the `after` graph has a cycle, and the
      names it reports contain one. */
  method StartOrderOrCycle(g: Graph) returns (r: Result<seq<string>, set<string>>)
    requires Closed(g)
    ensures r.Ok? ==> Topological(g, r.value) && !exists p :: IsCycle(g, p)
    ensures r.Err? ==> HasCycleIn(g, r.error)
  {
    r := ComputeStartOrder(g);
    if r.Ok? {
      forall p ensures !IsCycle(g, p) { OrderExcludesCycles(g, r.value, p); }
    } else {
      ghost var c := StuckHasCycle(g, r.error);
    }
  }
}
