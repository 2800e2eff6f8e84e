/** `_stop_all` (orchestrator/supervisor.py): reverse dependency waves. */
module Teardown {
  import opened Names
  import opened StartOrder

  datatype Event = Begins(n: string) | Returns(n: string)

  ghost predicate Once(log: seq<Event>) {
    forall i, j | 0 <= i < j < |log| :: log[i] != log[j]
  }

  ghost predicate BeginsFirst(log: seq<Event>) {
    forall i | 0 <= i < |log| && log[i].Returns? :: Begins(log[i].n) in log[..i]
  }

  /** The log of stops that have started, `running` among them still under way. */
  ghost predicate Logged(log: seq<Event>, started: set<string>, running: set<string>) {
    && Once(log) && BeginsFirst(log) && running <= started
    && (forall n :: Begins(n) in log <==> n in started)
    && (forall n :: Returns(n) in log <==> n in started - running)
  }

  lemma LogGrows(log: seq<Event>, e: Event)
    requires Once(log) && BeginsFirst(log) && e !in log && (e.Returns? ==> Begins(e.n) in log)
    ensures Once(log + [e]) && BeginsFirst(log + [e])
    ensures forall x :: x in log + [e] <==> x in log || x == e
  {
    var all := log + [e];
    forall i | 0 <= i < |all| && all[i].Returns? ensures Begins(all[i].n) in all[..i] {
      assert all[..i] == if i == |log| then log else log[..i];
    }
  }

  lemma BeginOne(log: seq<Event>, started: set<string>, running: set<string>, n: string)
    requires Logged(log, started, running) && n !in started
    ensures Logged(log + [Begins(n)], started + {n}, running + {n})
  {
    LogGrows(log, Begins(n));
  }

  lemma ReturnOne(log: seq<Event>, started: set<string>, running: set<string>, n: string)
    requires Logged(log, started, running) && n in running
    ensures Logged(log + [Returns(n)], started, running - {n})
  {
    LogGrows(log, Returns(n));
  }

  /** Every dependent of a service has returned before the service's own stop begins. */
  ghost predicate DependentsFirst(g: Graph, log: seq<Event>) {
    forall i, m | 0 <= i < |log| && log[i].Begins? && Edge(g, m, log[i].n) :: Returns(m) in log[..i]
  }

  /** A gather in progress: the first `k` stops of the wave have begun. */
  ghost predicate Gathering(wave: seq<string>, k: nat, started: set<string>, running: set<string>,
                            before: seq<Event>, log: seq<Event>) {
    && k <= |wave| && running <= Elements(wave[..k]) && before <= log
    && Logged(log, started + Elements(wave[..k]), running)
    && (forall i | |before| <= i < |log| :: log[i].n in Elements(wave))
  }

  lemma GatherBegins(wave: seq<string>, k: nat, started: set<string>, running: set<string>,
                     before: seq<Event>, log: seq<Event>)
    requires Distinct(wave) && started !! Elements(wave) && k < |wave|
    requires Gathering(wave, k, started, running, before, log)
    ensures Gathering(wave, k + 1, started, running + {wave[k]}, before, log + [Begins(wave[k])])
  {
    TakeOne(wave, k, started);
    BeginOne(log, started + Elements(wave[..k]), running, wave[k]);
  }

  lemma GatherReturns(wave: seq<string>, k: nat, started: set<string>, running: set<string>,
                      before: seq<Event>, log: seq<Event>, n: string)
    requires Gathering(wave, k, started, running, before, log) && n in running
    ensures Gathering(wave, k, started, running - {n}, before, log + [Returns(n)])
  {
    Elements1(wave, k, n);
    ReturnOne(log, started + Elements(wave[..k]), running, n);
  }

  /** `asyncio.gather` over the wave: its stops start in order, and any one under way may return next. */
  method Gather(wave: seq<string>, log: seq<Event>, ghost started: set<string>) returns (log': seq<Event>)
    requires Distinct(wave) && Logged(log, started, {}) && started !! Elements(wave)
    ensures log <= log' && Logged(log', started + Elements(wave), {})
    ensures forall i | |log| <= i < |log'| :: log'[i].n in Elements(wave)
  {
    log' := log;
    var k := 0;
    var running: set<string> := {};
    assert wave[..0] == [] && started + Elements(wave[..0]) == started;
    while k < |wave| || running != {}
      invariant 0 <= k <= |wave| && Gathering(wave, k, started, running, log, log')
      decreases |wave| - k, |running|
    {
      if {
        case k < |wave| =>
          GatherBegins(wave, k, started, running, log, log');
          log', running, k := log' + [Begins(wave[k])], running + {wave[k]}, k + 1;
        case running != {} =>
          var n :| n in running;
          GatherReturns(wave, k, started, running, log, log', n);
          log', running := log' + [Returns(n)], running - {n};
      }
    }
    assert wave[..k] == wave;
  }

  lemma TakeOne(wave: seq<string>, k: nat, started: set<string>)
    requires Distinct(wave) && k < |wave| && started !! Elements(wave)
    ensures wave[k] in Elements(wave) && wave[k] !in started + Elements(wave[..k])
    ensures started + Elements(wave[..k]) + {wave[k]} == started + Elements(wave[..k + 1])
  {
    assert wave[..k + 1] == wave[..k] + [wave[k]];
    ElementsAppend(wave[..k], [wave[k]]);
  }

  lemma Elements1(wave: seq<string>, k: nat, n: string)
    requires k <= |wave| && n in Elements(wave[..k])
    ensures n in Elements(wave)
  {
  }

  // ---- The waves -----------------------------------------------------------------------------------

  function Dependents(g: Graph, n: string): set<string> {
    set m | m in g && Edge(g, m, n)
  }

  ghost predicate Table(g: Graph, table: map<string, set<string>>, todo: set<string>) {
    table.Keys == g.Keys && forall n | n in g :: table[n] == Dependents(g, n) - todo
  }

  /** The loops that fill the `dependents` table. */
  method BuildDependents(g: Graph) returns (table: map<string, set<string>>)
    requires Closed(g)
    ensures Table(g, table, {})
  {
    table := map n | n in g :: {};
    var todo := g.Keys;
    while todo != {}
      invariant todo <= g.Keys && Table(g, table, todo)
      decreases |todo|
    {
      var m :| m in todo;
      table := AddDependent(g, table, m, todo);
      todo := todo - {m};
    }
  }

  method AddDependent(g: Graph, table: map<string, set<string>>, m: string, ghost todo: set<string>)
      returns (table': map<string, set<string>>)
    requires Closed(g) && m in g && m in todo && Table(g, table, todo)
    ensures Table(g, table', todo - {m})
  {
    table' := table;
    var k := 0;
    while k < |g[m]|
      invariant 0 <= k <= |g[m]| && table'.Keys == g.Keys
      invariant forall n | n in g :: table'[n] == table[n] + (if n in g[m][..k] then {m} else {})
    {
      var d := g[m][k];
      assert Edge(g, m, d);
      table' := table'[d := table'[d] + {m}];
      k := k + 1;
    }
    assert g[m][..k] == g[m];
    forall n | n in g ensures table'[n] == Dependents(g, n) - (todo - {m}) {
      assert Edge(g, m, n) <==> n in g[m];
    }
  }

  function StopWave(table: map<string, set<string>>, remaining: set<string>, stopped: set<string>): set<string>
    requires remaining <= table.Keys
  {
    set n | n in remaining && table[n] <= stopped
  }

  /** Dependents come later in a start order. */
  lemma DependentsLater(g: Graph, order: seq<string>, i: nat, m: string) returns (k: nat)
    requires Topological(g, order) && i < |order| && Edge(g, m, order[i])
    ensures i < k < |order| && order[k] == m
  {
    assert m in Elements(order);
    k :| 0 <= k < |order| && order[k] == m;
    assert order[i] in Elements(order[..k]);
    var q :| 0 <= q < k && order[..k][q] == order[i];
    assert order[q] == order[i];
  }

  /** The last remaining service of the start order has no dependent left. */
  lemma WaveNotEmpty(g: Graph, order: seq<string>, table: map<string, set<string>>, remaining: set<string>)
    requires Topological(g, order) && remaining != {} && remaining <= g.Keys && Table(g, table, {})
    ensures StopWave(table, remaining, g.Keys - remaining) != {}
  {
    var i := LastIn(order, remaining);
    forall m | m in table[order[i]] ensures m in g.Keys - remaining {
      var k := DependentsLater(g, order, i, m);
    }
    assert order[i] in StopWave(table, remaining, g.Keys - remaining);
  }

  lemma LastIn(order: seq<string>, remaining: set<string>) returns (i: nat)
    requires remaining != {} && remaining <= Elements(order)
    ensures i < |order| && order[i] in remaining
    ensures forall k | i < k < |order| :: order[k] !in remaining
  {
    i := |order|;
    while i > 0 && order[i - 1] !in remaining
      invariant i <= |order| && forall k | i <= k < |order| :: order[k] !in remaining
    {
      i := i - 1;
    }
    var x :| x in remaining;
    assert x in Elements(order);
    i := i - 1;
  }

  /** A wave stopped after everything that depends on it keeps the log in dependency order. */
  lemma DependentsFirstGrows(g: Graph, log: seq<Event>, log': seq<Event>, wave: set<string>, stopped: set<string>)
    requires DependentsFirst(g, log) && log <= log'
    requires forall i | |log| <= i < |log'| :: log'[i].n in wave
    requires forall n, m | n in wave && Edge(g, m, n) :: m in stopped
    requires forall m | m in stopped :: Returns(m) in log
    ensures DependentsFirst(g, log')
  {
    forall i, m | 0 <= i < |log'| && log'[i].Begins? && Edge(g, m, log'[i].n) ensures Returns(m) in log'[..i] {
      if i < |log| {
        assert log'[i] == log[i] && log'[..i] == log[..i];
      } else {
        assert Returns(m) in log;
        var k :| 0 <= k < |log| && log[k] == Returns(m);
        assert log'[..i][k] == Returns(m);
      }
    }
  }

  ghost predicate Stopping(g: Graph, remaining: set<string>, stopped: set<string>, log: seq<Event>) {
    remaining <= g.Keys && stopped == g.Keys - remaining && Logged(log, stopped, {}) && DependentsFirst(g, log)
  }

  lemma WaveStopped(g: Graph, table: map<string, set<string>>, remaining: set<string>, stopped: set<string>,
                    log: seq<Event>, log': seq<Event>, wave: set<string>)
    requires Stopping(g, remaining, stopped, log) && Table(g, table, {})
    requires wave == StopWave(table, remaining, stopped)
    requires log <= log' && Logged(log', stopped + wave, {})
    requires forall i | |log| <= i < |log'| :: log'[i].n in wave
    ensures Stopping(g, remaining - wave, stopped + wave, log')
  {
    forall n, m | n in wave && Edge(g, m, n) ensures m in stopped { assert m in table[n]; }
    DependentsFirstGrows(g, log, log', wave, stopped);
  }

  /** Whenever `start_order` accepted the configuration: every wave is nonempty, every service is stopped
      exactly once, and its stop begins only after the stops of all its dependents have returned. */
  method StopAll(g: Graph, ghost order: seq<string>) returns (log: seq<Event>)
    requires Closed(g) && Topological(g, order)
    ensures Logged(log, g.Keys, {}) && DependentsFirst(g, log)
  {
    var table := BuildDependents(g);
    var stopped: set<string> := {};
    var remaining := g.Keys;
    log := [];
    while remaining != {}
      invariant Stopping(g, remaining, stopped, log)
      decreases |remaining|
    {
      var free := StopWave(table, remaining, stopped);
      var wave := SortNames(free);
      WaveNotEmpty(g, order, table, remaining);
      AscendingDistinct(wave);
      ghost var before := log;
      log := Gather(wave, log, stopped);
      WaveStopped(g, table, remaining, stopped, before, log, free);
      Nonempty(wave, free);
      Shrinks(remaining - free, remaining, wave[0]);
      stopped := stopped + free;
      remaining := remaining - free;
    }
  }

  lemma Nonempty(wave: seq<string>, free: set<string>)
    requires Elements(wave) == free && free != {}
    ensures wave != [] && wave[0] in free
  {
    var x :| x in free;
    assert x in wave;
    FirstIn(wave);
  }

  lemma AscendingDistinct(q: seq<string>)
    requires Ascending(q)
    ensures Distinct(q)
  {
    forall i, j | 0 <= i < j < |q| ensures q[i] != q[j] { LessAsymmetric(q[i], q[j]); }
  }

  /** The same for indirect dependents: along every chain of `after` edges the stop of the far dependent has
      returned before the stop of the service begins. */
  lemma {:induction false} ChainStopsInOrder(g: Graph, log: seq<Event>, p: seq<string>, i: nat)
    requires BeginsFirst(log) && DependentsFirst(g, log)
    requires IsWalk(g, p) && |p| > 1 && i < |log| && log[i] == Begins(p[|p| - 1])
    ensures Returns(p[0]) in log[..i]
    decreases |p|
  {
    var q := p[..|p| - 1];
    assert Edge(g, p[|p| - 2], p[|p| - 2 + 1]);
    assert Returns(p[|p| - 2]) in log[..i];
    if |p| == 2 {
    } else {
      var k :| 0 <= k < i && log[..i][k] == Returns(q[|q| - 1]);
      assert log[k] == Returns(q[|q| - 1]);
      var b :| 0 <= b < k && log[..k][b] == Begins(q[|q| - 1]);
      assert log[b] == Begins(q[|q| - 1]);
      forall x | 0 <= x < |q| - 1 ensures Edge(g, q[x], q[x + 1]) { assert Edge(g, p[x], p[x + 1]); }
      ChainStopsInOrder(g, log, q, b);
      assert log[..b] <= log[..i];
    }
  }
}
