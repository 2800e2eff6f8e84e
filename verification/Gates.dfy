/** Gate checks with their run-stamped cache (orchestrator/gates.py). */
module Gates {
  import opened Wrappers
  import opened Names

  type Positive = n: nat | n >= 1 witness 1

  datatype GateConfig = GateConfig(recheck: int, closeAfter: Positive)

  /** One execution of a gate's command: when it finished and what it said. */
  datatype Run = Run(stamp: int, ok: bool)

  /** Successive executions of one gate carry increasing stamps. */
  predicate Stamped(runs: seq<Run>) {
    |runs| > 1 ==>
      Stamped(runs[..|runs| - 1]) && runs[|runs| - 2].stamp < runs[|runs| - 1].stamp
  }

  lemma {:induction false} StampsDiffer(runs: seq<Run>, i: nat, j: nat)
    requires Stamped(runs) && i < j < |runs|
    ensures runs[i].stamp < runs[j].stamp
  {
    if i + 1 == j == |runs| - 1 {
    } else {
      StampsDiffer(runs[..|runs| - 1], i, if j < |runs| - 1 then j else j - 1);
    }
  }

  ghost predicate Extends(before: map<string, seq<Run>>, now: map<string, seq<Run>>) {
    before.Keys == now.Keys && forall g | g in before :: before[g] <= now[g]
  }

  lemma ExtendsPut(before: map<string, seq<Run>>, now: map<string, seq<Run>>, g: string, r: Run)
    requires Extends(before, now) && g in now
    ensures Extends(before, now[g := now[g] + [r]])
  {
  }

  lemma ExtendsTransitive(a: map<string, seq<Run>>, b: map<string, seq<Run>>, c: map<string, seq<Run>>)
    requires Extends(a, b) && Extends(b, c)
    ensures Extends(a, c)
  {
    forall g | g in a ensures a[g] <= c[g] { assert a[g] <= b[g] <= c[g]; }
  }

  function Get<T>(m: map<string, T>, g: string): Option<T> {
    if g in m then Some(m[g]) else None
  }

  function Last<T>(s: seq<T>): Option<T> {
    if |s| == 0 then None else Some(s[|s| - 1])
  }

  /** One gate: its cache entry is its latest execution, which is over. */
  predicate Line(runs: seq<Run>, cached: Option<Run>, clock: int) {
    Stamped(runs) && cached == Last(runs) && (cached.Some? ==> cached.value.stamp <= clock)
  }

  lemma LineRuns(runs: seq<Run>, cached: Option<Run>, clock: int, r: Run)
    requires Line(runs, cached, clock) && clock < r.stamp
    ensures Line(runs + [r], Some(r), r.stamp)
  {
    assert (runs + [r])[..|runs|] == runs;
  }

  ghost predicate AllLines(runs: map<string, seq<Run>>, cache: map<string, Run>, clock: int) {
    cache.Keys <= runs.Keys && forall g | g in runs :: Line(runs[g], Get(cache, g), clock)
  }

  lemma AllLinesRun(runs: map<string, seq<Run>>, cache: map<string, Run>, clock: int, g: string, r: Run)
    requires AllLines(runs, cache, clock) && g in runs && clock < r.stamp
    ensures AllLines(runs[g := runs[g] + [r]], cache[g := r], r.stamp)
  {
    var runs', cache' := runs[g := runs[g] + [r]], cache[g := r];
    LineRuns(runs[g], Get(cache, g), clock, r);
    forall h | h in runs' ensures Line(runs'[h], Get(cache', h), r.stamp) {
      assert Line(runs[h], Get(cache, h), clock);
    }
  }

  /** `min_recheck`, as a time to sleep. */
  function Pause(gates: map<string, GateConfig>, names: seq<string>): (pause: nat)
    requires |names| > 0 && forall n | n in names :: n in gates
    ensures forall n | n in names :: pause == 0 || pause <= gates[n].recheck
    ensures (forall n | n in names :: gates[n].recheck > 0) ==> pause > 0 && exists n :: n in names && pause == gates[n].recheck
    ensures (exists n :: n in names && gates[n].recheck <= 0) ==> pause == 0
  {
    var first := if gates[names[0]].recheck > 0 then gates[names[0]].recheck else 0;
    if |names| == 1 then first
    else
      var rest := Pause(gates, names[1..]);
      if first < rest then first else rest
  }

  class GateSet {
    const gates: map<string, GateConfig>
    var cache: map<string, Run>
    var clock: int
    ghost var runs: map<string, seq<Run>>

    ghost predicate Valid()
      reads this
    {
      runs.Keys == gates.Keys && AllLines(runs, cache, clock)
    }

    constructor (g: map<string, GateConfig>)
      ensures Valid() && gates == g && forall n | n in runs :: runs[n] == []
    {
      gates, cache, clock := g, map[], 0;
      runs := map n | n in g :: [];
    }

    /** `asyncio.sleep` for at least this long, while other tasks do whatever they do. */
    method Sleep(pause: nat)
      requires Valid()
      modifies this
      ensures Valid() && Extends(old(runs), runs) && clock >= old(clock) + pause
    {
      var wake := clock + pause;
      OtherTasks({});
      if clock < wake { clock := wake; }
    }

    /** The command has run for some time and given its answer, which is cached and stamped. */
    method Finish(name: string)
      requires Valid() && name in gates
      modifies this
      ensures Valid() && name in cache && cache[name].stamp == clock > old(clock)
      ensures runs == old(runs)[name := old(runs)[name] + [cache[name]]]
      ensures cache == old(cache)[name := cache[name]]
    {
      var took :| took >= 0;
      var ok: bool := *;
      var r := Run(clock + took + 1, ok);
      AllLinesRun(runs, cache, clock, name, r);
      clock, cache, runs := r.stamp, cache[name := r], runs[name := runs[name] + [r]];
    }

    /** Whatever other tasks do at an await: time passes, and gates whose lock is free are checked. */
    method OtherTasks(locked: set<string>)
      requires Valid()
      modifies this
      ensures Valid() && Extends(old(runs), runs) && clock >= old(clock)
      ensures forall g | g in locked :: Same(old(runs), runs, old(cache), cache, g)
    {
      var n :| n >= 0;
      while n > 0
        invariant Valid() && Extends(old(runs), runs) && clock >= old(clock)
        invariant forall g | g in locked :: Same(old(runs), runs, old(cache), cache, g)
        decreases n
      {
        var free := gates.Keys - locked;
        if free != {} {
          var g :| g in free;
          ghost var before := runs;
          Finish(g);
          ExtendsPut(old(runs), before, g, cache[g]);
        }
        n := n - 1;
      }
      var later :| later >= 0;
      clock := clock + later;
    }

    /** `_check`, under the gate's lock: the cached answer is served only while it is younger than
        `recheck_seconds`, so unforced executions are at least that far apart. */
    method Check(name: string, refresh: bool) returns (ok: bool)
      requires Valid() && name in gates
      modifies this
      ensures Valid() && name in cache && ok == cache[name].ok && Extends(old(runs), runs) && clock >= old(clock)
      ensures Served(old(cache), old(clock), name, refresh, gates[name].recheck) ==>
                runs == old(runs) && cache == old(cache)
      ensures !Served(old(cache), old(clock), name, refresh, gates[name].recheck) ==>
                runs[name] == old(runs)[name] + [cache[name]] && cache[name].stamp > old(clock)
    {
      if name in cache && !refresh && clock - cache[name].stamp < gates[name].recheck {
        return cache[name].ok;
      }
      OtherTasks({name});
      assert Same(old(runs), runs, old(cache), cache, name);
      ghost var before := runs;
      Finish(name);
      ExtendsPut(old(runs), before, name, cache[name]);
      ok := cache[name].ok;
    }

    /** One call of `_check` and the stamp of its answer: the gate's latest execution, and one from after the call if
        that was asked for. */
    method Ask(name: string, refresh: bool) returns (r: Run)
      requires Valid() && name in gates
      modifies this
      ensures Valid() && Extends(old(runs), runs) && Latest(old(runs[name]), runs[name], r)
      ensures clock >= old(clock) && Timely(r, old(clock), refresh, gates[name].recheck)
    {
      OtherTasks({});
      ghost var mid := runs;
      var ok := Check(name, refresh);
      ExtendsTransitive(old(runs), mid, runs);
      r := Run(cache[name].stamp, ok);
      assert Last(runs[name]) == Some(r);
      assert runs[name][|runs[name]| - 1] == r;
    }

    /** `satisfied`: the gates that fail, by the answers of one `_check` after the other. */
    method Satisfied(names: seq<string>, refresh: bool) returns (failing: seq<string>, ghost answers: seq<Run>)
      requires Valid() && forall n | n in names :: n in gates
      modifies this
      ensures Valid() && Extends(old(runs), runs)
      ensures Round(gates, old(runs), runs, old(clock), names, refresh, answers) && failing == Failing(names, answers)
    {
      failing, answers := [], [];
      var i := 0;
      while i < |names|
        invariant 0 <= i <= |names| && Valid() && Extends(old(runs), runs) && clock >= old(clock)
        invariant Round(gates, old(runs), runs, old(clock), names[..i], refresh, answers)
        invariant failing == Failing(names[..i], answers)
      {
        ghost var mid, now := runs, clock;
        var r := Ask(names[i], refresh);
        RoundMore(gates, old(runs), mid, runs, old(clock), now, names, i, refresh, answers, r);
        answers := answers + [r];
        if !r.ok { failing := failing + [names[i]]; }
        i := i + 1;
      }
      assert names[..i] == names;
    }

    /** `poll`: each answer is the latest execution of its gate at some moment of this call. */
    method Poll(names: seq<string>) returns (out: map<string, Run>)
      requires Valid() && Elements(names) <= gates.Keys
      modifies this
      ensures Valid() && out.Keys == Elements(names)
      ensures Extends(old(runs), runs) && Polled(old(runs), runs, out)
      ensures clock >= old(clock) && AllRecent(gates, out, old(clock))
    {
      out := map[];
      var i := 0;
      while i < |names|
        invariant Valid() && PollTo(names, i, old(runs), runs, out)
        invariant clock >= old(clock) && AllRecent(gates, out, old(clock))
      {
        ghost var mid, now := runs, clock;
        NamesKnown(names, i, gates.Keys);
        var r := Ask(names[i], false);
        PollStep(names, i, old(runs), mid, runs, out, r);
        RecentSooner(r, old(clock), now, gates[names[i]].recheck);
        out := out[names[i] := r];
        i := i + 1;
      }
      assert names[..i] == names;
    }
  }

  lemma NamesKnown(names: seq<string>, i: nat, known: set<string>)
    requires i < |names| && Elements(names) <= known
    ensures names[i] in known
  {
    assert names[i] in Elements(names);
  }

  /** The cache answers this call of `_check`. */
  predicate Served(cache: map<string, Run>, clock: int, name: string, refresh: bool, recheck: int) {
    name in cache && !refresh && clock - cache[name].stamp < recheck
  }

  ghost predicate Same(before: map<string, seq<Run>>, now: map<string, seq<Run>>,
                       cached: map<string, Run>, cache: map<string, Run>, g: string) {
    Get(before, g) == Get(now, g) && Get(cached, g) == Get(cache, g)
  }

  ghost predicate PollTo(names: seq<string>, i: int, before: map<string, seq<Run>>, now: map<string, seq<Run>>,
                         out: map<string, Run>) {
    0 <= i <= |names| && out.Keys == Elements(names[..i]) && Extends(before, now) && Polled(before, now, out)
  }

  lemma PollStep(names: seq<string>, i: nat, before: map<string, seq<Run>>, mid: map<string, seq<Run>>,
                 now: map<string, seq<Run>>, out: map<string, Run>, r: Run)
    requires PollTo(names, i, before, mid, out) && i < |names| && Extends(mid, now) && names[i] in now
    requires Latest(mid[names[i]], now[names[i]], r)
    ensures PollTo(names, i + 1, before, now, out[names[i] := r])
  {
    ExtendsTransitive(before, mid, now);
    PolledGrows(before, mid, now, out, names[i], r);
    assert names[..i + 1] == names[..i] + [names[i]];
    ElementsAppend(names[..i], [names[i]]);
    assert Elements([names[i]]) == {names[i]};
  }

  ghost predicate Polled(before: map<string, seq<Run>>, now: map<string, seq<Run>>, out: map<string, Run>) {
    before.Keys == now.Keys && out.Keys <= now.Keys && forall n | n in out :: Latest(before[n], now[n], out[n])
  }

  lemma PolledGrows(before: map<string, seq<Run>>, mid: map<string, seq<Run>>, now: map<string, seq<Run>>,
                    out: map<string, Run>, name: string, r: Run)
    requires Polled(before, mid, out) && Extends(before, mid) && Extends(mid, now) && name in now
    requires Latest(mid[name], now[name], r)
    ensures Polled(before, now, out[name := r])
  {
    var k :| 0 <= k < |now[name]| && now[name][k] == r && |mid[name]| <= k + 1;
    assert before[name] <= mid[name];
    forall n | n in out ensures Latest(before[n], now[n], out[n]) { LatestStays(before[n], mid[n], now[n], out[n]); }
  }

  /** Finished after this moment, or young enough then to be served from the cache. */
  predicate Recent(r: Run, clock: int, recheck: int) {
    r.stamp > clock || clock - r.stamp < recheck
  }

  /** An answer that was fresh enough: from after this moment, or, unless it had to be, young enough then. */
  predicate Timely(r: Run, clock: int, refresh: bool, recheck: int) {
    r.stamp > clock || (!refresh && clock - r.stamp < recheck)
  }

  /** One answer of a round. */
  ghost predicate Heeded(gates: map<string, GateConfig>, before: map<string, seq<Run>>, now: map<string, seq<Run>>,
                         clock: int, name: string, refresh: bool, r: Run) {
    name in gates && name in before && name in now && Latest(before[name], now[name], r) &&
    Timely(r, clock, refresh, gates[name].recheck)
  }

  /** The answers of one round: each the latest execution of its gate at some moment of the round, and timely. */
  ghost predicate Round(gates: map<string, GateConfig>, before: map<string, seq<Run>>, now: map<string, seq<Run>>,
                        clock: int, names: seq<string>, refresh: bool, answers: seq<Run>) {
    |answers| == |names| &&
    forall i {:trigger answers[i]} | 0 <= i < |names| :: Heeded(gates, before, now, clock, names[i], refresh, answers[i])
  }

  lemma RoundMore(gates: map<string, GateConfig>, before: map<string, seq<Run>>, mid: map<string, seq<Run>>,
                  now: map<string, seq<Run>>, clock: int, later: int, names: seq<string>, i: nat, refresh: bool,
                  answers: seq<Run>, r: Run)
    requires i < |names| && Round(gates, before, mid, clock, names[..i], refresh, answers)
    requires Extends(before, mid) && Extends(mid, now) && clock <= later
    requires names[i] in gates && names[i] in mid && Latest(mid[names[i]], now[names[i]], r)
    requires Timely(r, later, refresh, gates[names[i]].recheck)
    ensures Round(gates, before, now, clock, names[..i + 1], refresh, answers + [r])
    ensures Failing(names[..i + 1], answers + [r]) == Failing(names[..i], answers) + if r.ok then [] else [names[i]]
  {
    var k := Position(mid[names[i]], now[names[i]], r);
    assert before[names[i]] <= mid[names[i]];
    assert Latest(before[names[i]], now[names[i]], r);
    forall j | 0 <= j < i ensures Heeded(gates, before, now, clock, names[j], refresh, answers[j]) {
      assert Heeded(gates, before, mid, clock, names[..i][j], refresh, answers[j]);
      LatestStays(before[names[j]], mid[names[j]], now[names[j]], answers[j]);
    }
    assert names[..i + 1][..i] == names[..i] && (answers + [r])[..i] == answers;
  }

  /** The names whose answer was no. */
  function Failing(names: seq<string>, answers: seq<Run>): (failing: seq<string>)
    requires |names| == |answers|
    ensures forall n | n in failing :: n in names
  {
    if |names| == 0 then []
    else
      Failing(names[..|names| - 1], answers[..|names| - 1]) +
      if answers[|names| - 1].ok then [] else [names[|names| - 1]]
  }

  /** Nothing fails exactly if every answer is yes. */
  lemma {:induction false} NoneFailing(names: seq<string>, answers: seq<Run>)
    requires |names| == |answers|
    ensures |Failing(names, answers)| == 0 <==> forall i | 0 <= i < |answers| :: answers[i].ok
  {
    if |names| == 0 {
    } else {
      var rest := answers[..|names| - 1];
      NoneFailing(names[..|names| - 1], rest);
      if forall i | 0 <= i < |rest| :: rest[i].ok {
        forall i | 0 <= i < |answers| - 1 ensures answers[i].ok { assert rest[i].ok; }
      }
      forall i | 0 <= i < |rest| ensures rest[i] == answers[i] {}
    }
  }

  ghost predicate AllRecent(gates: map<string, GateConfig>, out: map<string, Run>, clock: int) {
    forall n | n in out :: n in gates && Recent(out[n], clock, gates[n].recheck)
  }

  lemma RecentSooner(r: Run, clock: int, later: int, recheck: int)
    requires Recent(r, later, recheck) && clock <= later
    ensures Recent(r, clock, recheck)
  {
  }

  /** `r` ended `before`, or was added to it since. */
  ghost predicate Latest(before: seq<Run>, now: seq<Run>, r: Run) {
    exists k | 0 <= k < |now| :: now[k] == r && |before| <= k + 1
  }

  lemma Position(before: seq<Run>, now: seq<Run>, r: Run) returns (k: nat)
    requires Latest(before, now, r)
    ensures k < |now| && now[k] == r && |before| <= k + 1
  {
    k :| 0 <= k < |now| && now[k] == r && |before| <= k + 1;
  }

  lemma LatestStays(before: seq<Run>, mid: seq<Run>, now: seq<Run>, r: Run)
    requires Latest(before, mid, r) && mid <= now
    ensures Latest(before, now, r)
  {
    var k :| 0 <= k < |mid| && mid[k] == r && |before| <= k + 1;
    assert now[k] == mid[k];
  }
}
