/** The continuous-gate watcher (`_watch_continuous_gates` in orchestrator/service.py): streaks counted on the
    run stamps of orchestrator/gates.py. */
module GateStreaks {
  import opened Wrappers
  import opened Names
  import opened Gates

  /** The executions of one gate a watcher has counted, as positions in the gate's own history. */
  type Seen = seq<nat>

  predicate Rising(seen: Seen) {
    |seen| > 1 ==> Rising(seen[..|seen| - 1]) && seen[|seen| - 2] < seen[|seen| - 1]
  }

  lemma {:induction false} RisingApart(seen: Seen, i: nat, j: nat)
    requires Rising(seen) && i < j < |seen|
    ensures seen[i] < seen[j]
  {
    if i + 1 == j == |seen| - 1 {
    } else {
      RisingApart(seen[..|seen| - 1], i, if j < |seen| - 1 then j else j - 1);
    }
  }

  predicate Within(seen: Seen, bound: nat) {
    forall i | 0 <= i < |seen| :: seen[i] < bound
  }

  /** How many of the latest counted executions failed in a row. */
  function Trailing(runs: seq<Run>, seen: Seen): nat
    requires Within(seen, |runs|)
  {
    if |seen| == 0 || runs[seen[|seen| - 1]].ok then 0 else 1 + Trailing(runs, seen[..|seen| - 1])
  }

  /** The last n counted executions all failed. */
  predicate FailedInARow(runs: seq<Run>, seen: Seen, n: nat) {
    n <= |seen| && forall i | |seen| - n <= i < |seen| :: seen[i] < |runs| && !runs[seen[i]].ok
  }

  /** An answer heard: it is counted unless it is the execution that was counted last. */
  function Counting(seen: Seen, p: nat): Seen {
    if |seen| > 0 && seen[|seen| - 1] == p then seen else seen + [p]
  }

  /** Which execution the answer for each gate came from, by position. */
  type Answer = map<string, nat>

  type Runs = map<string, seq<Run>>

  /** The executions there have been at some time of the clock. */
  datatype Moment = Moment(runs: Runs, clock: int)

  /** The executions of one gate that a sequence of polls has observed, each once. */
  function Observed(answers: seq<Answer>, g: string): Seen {
    if |answers| == 0 then []
    else
      var rest := Observed(answers[..|answers| - 1], g);
      if g in answers[|answers| - 1] then Counting(rest, answers[|answers| - 1][g]) else rest
  }

  /** No execution is counted twice: later counts are of later executions. */
  lemma CountedOnce(runs: seq<Run>, seen: Seen, i: nat, j: nat)
    requires Stamped(runs) && Rising(seen) && Within(seen, |runs|) && i < j < |seen|
    ensures seen[i] < seen[j] && runs[seen[i]].stamp < runs[seen[j]].stamp
  {
    RisingApart(seen, i, j);
    StampsDiffer(runs, seen[i], seen[j]);
  }

  lemma {:induction false} TrailingMeaning(runs: seq<Run>, seen: Seen, n: nat)
    requires Within(seen, |runs|)
    ensures FailedInARow(runs, seen, n) <==> n <= Trailing(runs, seen)
    decreases |seen|
  {
    if |seen| == 0 || n == 0 {
    } else {
      var rest := seen[..|seen| - 1];
      TrailingMeaning(runs, rest, n - 1);
      if FailedInARow(runs, seen, n) { assert !runs[seen[|seen| - 1]].ok; }
    }
  }

  lemma {:induction false} TrailingStable(runs: seq<Run>, more: seq<Run>, seen: Seen)
    requires Within(seen, |runs|) && runs <= more
    ensures Within(seen, |more|) && Trailing(runs, seen) == Trailing(more, seen)
    decreases |seen|
  {
    if |seen| == 0 {
    } else {
      assert more[seen[|seen| - 1]] == runs[seen[|seen| - 1]];
      TrailingStable(runs, more, seen[..|seen| - 1]);
    }
  }

  /** What the two dictionaries hold for one gate. */
  ghost predicate Counted(runs: seq<Run>, seen: Seen, stamp: Option<int>, streak: nat) {
    && Rising(seen) && Within(seen, |runs|)
    && stamp == (if |seen| == 0 then None else Some(runs[seen[|seen| - 1]].stamp))
    && streak == Trailing(runs, seen)
  }

  function GetOr(m: map<string, nat>, g: string): nat {
    if g in m then m[g] else 0
  }

  lemma CountedStable(runs: seq<Run>, more: seq<Run>, seen: Seen, stamp: Option<int>, streak: nat)
    requires Counted(runs, seen, stamp, streak) && runs <= more
    ensures Counted(more, seen, stamp, streak)
  {
    TrailingStable(runs, more, seen);
    if |seen| > 0 { assert more[seen[|seen| - 1]] == runs[seen[|seen| - 1]]; }
  }

  /** Counting keyed on the stamp counts executions: the same one never twice, a new one always. */
  lemma CountStep(runs: seq<Run>, seen: Seen, stamp: Option<int>, streak: nat, k: nat)
    requires Stamped(runs) && Counted(runs, seen, stamp, streak) && k < |runs|
    requires |seen| > 0 ==> seen[|seen| - 1] <= k
    ensures stamp == Some(runs[k].stamp) <==> |seen| > 0 && seen[|seen| - 1] == k
    ensures stamp != Some(runs[k].stamp) ==>
            Counted(runs, Counting(seen, k), Some(runs[k].stamp), if runs[k].ok then 0 else streak + 1)
  {
    assert (seen + [k])[..|seen|] == seen;
    if |seen| > 0 && seen[|seen| - 1] < k { StampsDiffer(runs, seen[|seen| - 1], k); }
  }

  ghost predicate AllCounted(runs: map<string, seq<Run>>, seen: map<string, Seen>,
                             counted: map<string, int>, streaks: map<string, nat>) {
    seen.Keys <= runs.Keys &&
    forall g {:trigger CountedAt(runs, seen, counted, streaks, g)} | g in seen ::
      CountedAt(runs, seen, counted, streaks, g)
  }

  ghost predicate CountedAt(runs: map<string, seq<Run>>, seen: map<string, Seen>,
                            counted: map<string, int>, streaks: map<string, nat>, g: string) {
    g in runs && g in seen && Counted(runs[g], seen[g], Get(counted, g), GetOr(streaks, g))
  }

  lemma AllCountedStable(before: map<string, seq<Run>>, runs: map<string, seq<Run>>, seen: map<string, Seen>,
                         counted: map<string, int>, streaks: map<string, nat>)
    requires AllCounted(before, seen, counted, streaks) && Extends(before, runs)
    ensures AllCounted(runs, seen, counted, streaks)
  {
    forall g | g in seen ensures CountedAt(runs, seen, counted, streaks, g) {
      assert CountedAt(before, seen, counted, streaks, g);
      CountedStable(before[g], runs[g], seen[g], Get(counted, g), GetOr(streaks, g));
    }
  }

  /** Nothing counted lies beyond the executions there were. */
  predicate AtEnd(runs: seq<Run>, seen: Seen) {
    |seen| > 0 ==> seen[|seen| - 1] < |runs|
  }

  /** Every answer of this poll is the execution its gate's count ends with. */
  ghost predicate Heard(runs: map<string, seq<Run>>, seen: map<string, Seen>, results: map<string, Run>, g: string) {
    g in runs && g in seen && g in results && |seen[g]| > 0 && seen[g][|seen[g]| - 1] < |runs[g]| &&
    runs[g][seen[g][|seen[g]| - 1]] == results[g]
  }

  ghost predicate AtThreshold(gates: map<string, GateConfig>, runs: map<string, seq<Run>>, seen: map<string, Seen>,
                              g: string) {
    g in gates && g in runs && g in seen && FailedInARow(runs[g], seen[g], gates[g].closeAfter)
  }

  /** One poll's answers, by the executions they came from: each the latest of its gate at some moment of the
      turn. */
  ghost predicate Answered(before: Runs, now: Runs, answer: Answer, names: set<string>) {
    && answer.Keys == names
    && forall g {:trigger AnsweredAt(before, now, answer, g)} | g in names :: AnsweredAt(before, now, answer, g)
  }

  ghost predicate AnsweredAt(before: Runs, now: Runs, answer: Answer, g: string) {
    g in before && g in now && g in answer && answer[g] < |now[g]| && |before[g]| <= answer[g] + 1
  }

  /** No answer is from an execution too old, at this time or later, to be served from the cache. */
  ghost predicate Prompt(gates: map<string, GateConfig>, clock: int, runs: Runs, answer: Answer) {
    forall g {:trigger PromptAt(gates, clock, runs, answer, g)} | g in answer :: PromptAt(gates, clock, runs, answer, g)
  }

  ghost predicate PromptAt(gates: map<string, GateConfig>, clock: int, runs: Runs, answer: Answer, g: string) {
    g in gates && g in runs && g in answer && answer[g] < |runs[g]| &&
    Recent(runs[g][answer[g]], clock, gates[g].recheck)
  }

  /** Counting one poll's answers. */
  ghost predicate Counts(seen: map<string, Seen>, answer: Answer, seen': map<string, Seen>) {
    seen'.Keys == seen.Keys == answer.Keys &&
    forall g {:trigger CountsAt(seen, answer, seen', g)} | g in seen :: CountsAt(seen, answer, seen', g)
  }

  predicate CountsAt(seen: map<string, Seen>, answer: Answer, seen': map<string, Seen>, g: string) {
    g in seen && g in seen' && g in answer && seen'[g] == Counting(seen[g], answer[g])
  }

  /** An answer that has been counted. */
  ghost predicate Noted(before: Runs, runs: Runs, start: map<string, Seen>, seen: map<string, Seen>,
                        results: map<string, Run>, answer: Answer, g: string) {
    && AnsweredAt(before, runs, answer, g) && CountsAt(start, answer, seen, g)
    && g in results && runs[g][answer[g]] == results[g]
  }

  lemma NotedIsHeard(before: Runs, runs: Runs, start: map<string, Seen>, seen: map<string, Seen>,
                     results: map<string, Run>, answer: Answer, g: string)
    requires Noted(before, runs, start, seen, results, answer, g)
    ensures Heard(runs, seen, results, g)
  {
  }

  /** An answer still to be counted: an execution no older than any counted one. */
  ghost predicate Pending(before: Runs, runs: Runs, start: map<string, Seen>, seen: map<string, Seen>,
                          results: map<string, Run>, g: string) {
    g in before && g in runs && g in seen && g in start && g in results && seen[g] == start[g] &&
    Stamped(runs[g]) && AtEnd(before[g], seen[g]) && Latest(before[g], runs[g], results[g])
  }

  /** Half-way through a poll's answers. */
  ghost predicate Observing(todo: set<string>, results: map<string, Run>, before: Runs, runs: Runs,
                            start: map<string, Seen>, seen: map<string, Seen>, answer: Answer,
                            counted: map<string, int>, streaks: map<string, nat>) {
    && todo <= results.Keys == seen.Keys == start.Keys && answer.Keys == results.Keys - todo
    && AllCounted(runs, seen, counted, streaks)
    && (forall g {:trigger Pending(before, runs, start, seen, results, g)} | g in todo ::
          Pending(before, runs, start, seen, results, g))
    && forall g {:trigger Noted(before, runs, start, seen, results, answer, g)} | g in results.Keys - todo ::
         Noted(before, runs, start, seen, results, answer, g)
  }

  /** After one answer, whether or not it was counted. */
  lemma ObservingStep(todo: set<string>, results: map<string, Run>, before: Runs, runs: Runs,
                      start: map<string, Seen>, seen: map<string, Seen>, answer: Answer,
                      counted: map<string, int>, streaks: map<string, nat>, g: string)
      returns (seen': map<string, Seen>, answer': Answer)
    requires Observing(todo, results, before, runs, start, seen, answer, counted, streaks) && g in todo
    ensures Get(counted, g) == Some(results[g].stamp) ==>
              Observing(todo - {g}, results, before, runs, start, seen', answer', counted, streaks)
    ensures Get(counted, g) != Some(results[g].stamp) ==>
              Observing(todo - {g}, results, before, runs, start, seen', answer', counted[g := results[g].stamp],
                        streaks[g := if results[g].ok then 0 else GetOr(streaks, g) + 1])
  {
    assert Pending(before, runs, start, seen, results, g) && CountedAt(runs, seen, counted, streaks, g);
    var k := Position(before[g], runs[g], results[g]);
    CountStep(runs[g], seen[g], Get(counted, g), GetOr(streaks, g), k);
    seen', answer' := seen[g := Counting(seen[g], k)], answer[g := k];
    OthersStay(todo, results, before, runs, start, seen, answer, g, seen', answer');
    assert answer'.Keys == results.Keys - (todo - {g});
    if Get(counted, g) == Some(results[g].stamp) {
      assert seen' == seen;
    } else {
      CountedOne(runs, seen, counted, streaks, g, k, results[g]);
    }
  }

  /** What one answer leaves alone. */
  lemma OthersStay(todo: set<string>, results: map<string, Run>, before: Runs, runs: Runs, start: map<string, Seen>,
                   seen: map<string, Seen>, answer: Answer, g: string, seen': map<string, Seen>, answer': Answer)
    requires forall h {:trigger Pending(before, runs, start, seen, results, h)} | h in todo ::
               Pending(before, runs, start, seen, results, h)
    requires forall h {:trigger Noted(before, runs, start, seen, results, answer, h)} | h in results.Keys - todo ::
               Noted(before, runs, start, seen, results, answer, h)
    requires forall h {:trigger Get(seen', h)} | h != g :: Get(seen', h) == Get(seen, h)
    requires forall h {:trigger Get(answer', h)} | h != g :: Get(answer', h) == Get(answer, h)
    ensures forall h {:trigger Pending(before, runs, start, seen', results, h)} | h in todo - {g} ::
              Pending(before, runs, start, seen', results, h)
    ensures forall h {:trigger Noted(before, runs, start, seen', results, answer', h)} |
              h in results.Keys - todo && h != g ::
              Noted(before, runs, start, seen', results, answer', h)
  {
    forall h | h in todo - {g} ensures Pending(before, runs, start, seen', results, h) {
      assert Pending(before, runs, start, seen, results, h) && Get(seen', h) == Get(seen, h);
    }
    forall h | h in results.Keys - todo && h != g ensures Noted(before, runs, start, seen', results, answer', h) {
      assert Noted(before, runs, start, seen, results, answer, h);
      assert Get(seen', h) == Get(seen, h) && Get(answer', h) == Get(answer, h);
    }
  }

  lemma CountedOne(runs: Runs, seen: map<string, Seen>, counted: map<string, int>, streaks: map<string, nat>,
                   g: string, k: nat, r: Run)
    requires AllCounted(runs, seen, counted, streaks) && g in seen && k < |runs[g]| && runs[g][k] == r
    requires Counted(runs[g], Counting(seen[g], k), Some(r.stamp), if r.ok then 0 else GetOr(streaks, g) + 1)
    ensures AllCounted(runs, seen[g := Counting(seen[g], k)], counted[g := r.stamp],
                       streaks[g := if r.ok then 0 else GetOr(streaks, g) + 1])
  {
    var seen', counted', streaks' := seen[g := Counting(seen[g], k)], counted[g := r.stamp],
      streaks[g := if r.ok then 0 else GetOr(streaks, g) + 1];
    forall h | h in seen' ensures CountedAt(runs, seen', counted', streaks', h) {
      if h != g { assert CountedAt(runs, seen, counted, streaks, h); }
    }
  }

  /** The streak test of one gate, in terms of its executions. */
  lemma ThresholdMeaning(gates: map<string, GateConfig>, results: map<string, Run>, runs: map<string, seq<Run>>,
                         seen: map<string, Seen>, counted: map<string, int>, streaks: map<string, nat>, g: string)
    requires AllCounted(runs, seen, counted, streaks) && Heard(runs, seen, results, g) && g in gates
    ensures AtThreshold(gates, runs, seen, g) <==>
            !results[g].ok && GetOr(streaks, g) >= gates[g].closeAfter
  {
    assert CountedAt(runs, seen, counted, streaks, g);
    TrailingMeaning(runs[g], seen[g], gates[g].closeAfter);
  }

  ghost predicate ClosedExactly(gates: map<string, GateConfig>, runs: map<string, seq<Run>>, seen: map<string, Seen>,
                                closed: set<string>) {
    forall g {:trigger AtThreshold(gates, runs, seen, g)} :: g in closed <==> AtThreshold(gates, runs, seen, g)
  }

  lemma ClosedMeaning(gates: map<string, GateConfig>, results: map<string, Run>, before: Runs, runs: Runs,
                      start: map<string, Seen>, seen: map<string, Seen>, answer: Answer, counted: map<string, int>,
                      streaks: map<string, nat>, closed: set<string>)
    requires Observing({}, results, before, runs, start, seen, answer, counted, streaks) && results.Keys <= gates.Keys
    requires closed == set g | g in results && !results[g].ok && GetOr(streaks, g) >= gates[g].closeAfter
    ensures ClosedExactly(gates, runs, seen, closed)
  {
    forall g ensures g in closed <==> AtThreshold(gates, runs, seen, g) {
      if g in results {
        assert Noted(before, runs, start, seen, results, answer, g);
        NotedIsHeard(before, runs, start, seen, results, answer, g);
        ThresholdMeaning(gates, results, runs, seen, counted, streaks, g);
      }
    }
  }

  lemma ReadyToObserve(results: map<string, Run>, before: Runs, runs: Runs, cache: map<string, Run>, clock: int,
                       seen: map<string, Seen>, counted: map<string, int>, streaks: map<string, nat>)
    requires results.Keys == seen.Keys && AllCounted(before, seen, counted, streaks)
    requires Extends(before, runs) && Polled(before, runs, results) && AllLines(runs, cache, clock)
    ensures Observing(results.Keys, results, before, runs, seen, seen, map[], counted, streaks)
  {
    AllCountedStable(before, runs, seen, counted, streaks);
    forall g | g in results ensures Pending(before, runs, seen, seen, results, g) {
      assert Line(runs[g], Get(cache, g), clock);
      assert CountedAt(before, seen, counted, streaks, g);
    }
  }

  /** All answers counted. */
  lemma AllNoted(results: map<string, Run>, earlier: Runs, before: Runs, runs: Runs, start: map<string, Seen>,
                 seen: map<string, Seen>, answer: Answer, counted: map<string, int>, streaks: map<string, nat>)
    requires Observing({}, results, before, runs, start, seen, answer, counted, streaks) && Extends(earlier, before)
    ensures Answered(earlier, runs, answer, results.Keys) && Counts(start, answer, seen)
  {
    forall g | g in results.Keys ensures AnsweredAt(earlier, runs, answer, g) && CountsAt(start, answer, seen, g) {
      assert Noted(before, runs, start, seen, results, answer, g);
      assert earlier[g] <= before[g];
    }
  }

  lemma AllPrompt(gates: map<string, GateConfig>, clock: int, later: int, results: map<string, Run>, before: Runs,
                  runs: Runs, start: map<string, Seen>, seen: map<string, Seen>, answer: Answer,
                  counted: map<string, int>, streaks: map<string, nat>)
    requires Observing({}, results, before, runs, start, seen, answer, counted, streaks)
    requires AllRecent(gates, results, later) && clock <= later
    ensures Prompt(gates, clock, runs, answer)
  {
    forall g | g in answer ensures PromptAt(gates, clock, runs, answer, g) {
      assert Noted(before, runs, start, seen, results, answer, g);
      RecentSooner(results[g], clock, later, gates[g].recheck);
    }
  }

  // ---- Over many polls -----------------------------------------------------------------------------

  /** A gate is at its threshold after these polls: of the executions they observed, its last `close_after` all
      failed. */
  ghost predicate ClosedBy(gates: map<string, GateConfig>, runs: Runs, answers: seq<Answer>, g: string) {
    g in gates && g in runs && FailedInARow(runs[g], Observed(answers, g), gates[g].closeAfter)
  }

  ghost predicate NoneClosed(gates: map<string, GateConfig>, runs: Runs, answers: seq<Answer>) {
    forall g {:trigger ClosedBy(gates, runs, answers, g)} :: !ClosedBy(gates, runs, answers, g)
  }

  /** The polls of one watcher: what there was between them, and the answers each one gave after the sleep. */
  ghost predicate Told(gates: map<string, GateConfig>, moments: seq<Moment>, answers: seq<Answer>, names: seq<string>) {
    && |moments| == |answers| + 1
    && forall j {:trigger ToldAt(gates, moments, answers, names, j)} | 0 <= j < |answers| ::
         ToldAt(gates, moments, answers, names, j)
  }

  ghost predicate ToldAt(gates: map<string, GateConfig>, moments: seq<Moment>, answers: seq<Answer>, names: seq<string>,
                         j: int) {
    0 <= j < |answers| && j + 1 < |moments| && Turn(gates, moments[j], moments[j + 1], answers[j], names)
  }

  /** A turn that polls: time for the sleep has passed, and each answer was up to date after it. */
  ghost predicate Turn(gates: map<string, GateConfig>, before: Moment, now: Moment, answer: Answer, names: seq<string>) {
    && |names| > 0 && (forall n | n in names :: n in gates)
    && Extends(before.runs, now.runs) && Answered(before.runs, now.runs, answer, Elements(names))
    && before.clock + Pause(gates, names) <= now.clock
    && Prompt(gates, before.clock + Pause(gates, names), now.runs, answer)
  }

  lemma TurnTold(gates: map<string, GateConfig>, before: Moment, woken: Moment, now: Moment, results: map<string, Run>,
                 start: map<string, Seen>, seen: map<string, Seen>, answer: Answer, counted: map<string, int>,
                 streaks: map<string, nat>, names: seq<string>)
    requires Observing({}, results, woken.runs, now.runs, start, seen, answer, counted, streaks)
    requires results.Keys == Elements(names) && |names| > 0 && forall n | n in names :: n in gates
    requires Extends(before.runs, woken.runs) && Extends(woken.runs, now.runs)
    requires before.clock + Pause(gates, names) <= woken.clock <= now.clock && AllRecent(gates, results, woken.clock)
    ensures Turn(gates, before, now, answer, names) && Counts(start, answer, seen)
  {
    ExtendsTransitive(before.runs, woken.runs, now.runs);
    AllNoted(results, before.runs, woken.runs, now.runs, start, seen, answer, counted, streaks);
    AllPrompt(gates, before.clock + Pause(gates, names), woken.clock, results, woken.runs, now.runs, start, seen, answer,
              counted, streaks);
  }

  lemma ToldMore(gates: map<string, GateConfig>, moments: seq<Moment>, answers: seq<Answer>, names: seq<string>,
                 now: Moment, answer: Answer)
    requires Told(gates, moments, answers, names) && Turn(gates, moments[|answers|], now, answer, names)
    ensures Told(gates, moments + [now], answers + [answer], names)
  {
    forall j | 0 <= j < |answers| + 1 ensures ToldAt(gates, moments + [now], answers + [answer], names, j) {
      if j < |answers| { assert ToldAt(gates, moments, answers, names, j); }
    }
  }

  /** The gate at whose cadence the watcher wakes is run again, by somebody, between any two of its polls. */
  lemma FastestIsNew(gates: map<string, GateConfig>, moments: seq<Moment>, answers: seq<Answer>, names: seq<string>,
                     g: string, j: nat)
    requires Told(gates, moments, answers, names) && j < |answers| && g in names && g in gates
    requires |names| > 0 && (forall n | n in names :: n in gates) && Pause(gates, names) == gates[g].recheck
    ensures g in answers[j] && g in moments[j + 1].runs && answers[j][g] < |moments[j + 1].runs[g]|
    ensures moments[j].clock < moments[j + 1].runs[g][answers[j][g]].stamp
  {
    assert ToldAt(gates, moments, answers, names, j);
    assert AnsweredAt(moments[j].runs, moments[j + 1].runs, answers[j], g);
    assert PromptAt(gates, moments[j].clock + Pause(gates, names), moments[j + 1].runs, answers[j], g);
  }

  /** What a gate's polls have observed rises, and ends among the executions there were. */
  lemma {:induction false} ObservedRises(gates: map<string, GateConfig>, moments: seq<Moment>, answers: seq<Answer>,
                                         names: seq<string>, g: string)
    requires Told(gates, moments, answers, names) && (g in names ==> g in moments[|answers|].runs)
    ensures Rising(Observed(answers, g))
    ensures g in names ==> AtEnd(moments[|answers|].runs[g], Observed(answers, g))
    decreases |answers|
  {
    if |answers| == 0 {
    } else {
      var n := |answers| - 1;
      var earlier, before := moments[..n + 1], answers[..n];
      forall j | 0 <= j < n ensures ToldAt(gates, earlier, before, names, j) {
        assert ToldAt(gates, moments, answers, names, j);
      }
      assert ToldAt(gates, moments, answers, names, n);
      if g in names { assert AnsweredAt(moments[n].runs, moments[n + 1].runs, answers[n], g); }
      ObservedRises(gates, earlier, before, names, g);
      assert (Observed(before, g) + [0])[..|Observed(before, g)|] == Observed(before, g);
      if g in names {
        var seen, p := Observed(before, g), answers[n][g];
        assert (seen + [p])[..|seen|] == seen;
      }
    }
  }

  /** What has been observed is what the polls were answered with, and nothing else. */
  lemma {:induction false} ObservedIsAnswered(answers: seq<Answer>, g: string, p: nat)
    ensures p in Observed(answers, g) <==> exists i :: 0 <= i < |answers| && g in answers[i] && answers[i][g] == p
  {
    if |answers| == 0 {
    } else {
      var before, last := answers[..|answers| - 1], answers[|answers| - 1];
      ObservedIsAnswered(before, g, p);
      if i :| 0 <= i < |answers| && g in answers[i] && answers[i][g] == p {
        assert i < |before| ==> before[i] == answers[i];
      }
      if i :| 0 <= i < |before| && g in before[i] && before[i][g] == p { assert answers[i] == before[i]; }
    }
  }

  lemma {:induction false} RisingWithin(seen: Seen, bound: nat)
    requires Rising(seen) && (|seen| > 0 ==> seen[|seen| - 1] < bound)
    ensures Within(seen, bound)
  {
    forall i | 0 <= i < |seen| ensures seen[i] < bound {
      if i < |seen| - 1 { RisingApart(seen, i, |seen| - 1); }
    }
  }

  /** A gate at its threshold has that many different executions, in order, that failed, and the polls observed no
      pass between them. */
  lemma StreakIsReal(gates: map<string, GateConfig>, moments: seq<Moment>, answers: seq<Answer>, names: seq<string>,
                     g: string, i: nat, j: nat)
    requires Told(gates, moments, answers, names) && g in names && g in moments[|answers|].runs
    requires var runs := moments[|answers|].runs; ClosedBy(gates, runs, answers, g) && Stamped(runs[g])
    requires var seen := Observed(answers, g); |seen| - gates[g].closeAfter <= i < j < |seen|
    ensures var runs, seen := moments[|answers|].runs[g], Observed(answers, g);
            && seen[i] < seen[j] < |runs| && runs[seen[i]].stamp < runs[seen[j]].stamp
            && !runs[seen[i]].ok && !runs[seen[j]].ok
  {
    var seen := Observed(answers, g);
    ObservedRises(gates, moments, answers, names, g);
    RisingWithin(seen, |moments[|answers|].runs[g]|);
    CountedOnce(moments[|answers|].runs[g], seen, i, j);
  }

  datatype Ending = Stopped(closed: set<string>) | Gone | Watching

  /** How a turn that polled ends. */
  ghost predicate Verdict(gates: map<string, GateConfig>, runs: Runs, seen: map<string, Seen>, liveAfter: bool,
                          ending: Ending) {
    match ending
    case Watching => ClosedExactly(gates, runs, seen, {})
    case Stopped(closed) => liveAfter && closed != {} && ClosedExactly(gates, runs, seen, closed)
    case Gone => !liveAfter && exists g :: AtThreshold(gates, runs, seen, g)
  }

  class GateWatcher {
    const names: seq<string>
    const gates: GateSet
    var streaks: map<string, nat>
    var counted: map<string, int>
    ghost var seen: map<string, Seen>

    ghost predicate Valid()
      reads this, gates
    {
      && gates.Valid() && |names| > 0 && seen.Keys == Elements(names) <= gates.gates.Keys
      && AllCounted(gates.runs, seen, counted, streaks)
    }

    constructor (ns: seq<string>, g: GateSet)
      requires g.Valid() && |ns| > 0 && Elements(ns) <= g.gates.Keys
      ensures Valid() && names == ns && gates == g
      ensures forall n | n in seen :: seen[n] == []
    {
      names, gates, streaks, counted := ns, g, map[], map[];
      seen := map n | n in ns :: [];
    }

    /** The answers of one poll, each execution counted once. */
    method CountAll(results: map<string, Run>, ghost before: Runs) returns (ghost answer: Answer)
      requires Observing(results.Keys, results, before, gates.runs, seen, seen, map[], counted, streaks)
      modifies this
      ensures Observing({}, results, before, gates.runs, old(seen), seen, answer, counted, streaks)
    {
      var todo := results.Keys;
      answer := map[];
      while todo != {}
        invariant Observing(todo, results, before, gates.runs, old(seen), seen, answer, counted, streaks)
        decreases |todo|
      {
        var g :| g in todo;
        ghost var seen', answer' :=
          ObservingStep(todo, results, before, gates.runs, old(seen), seen, answer, counted, streaks, g);
        if Get(counted, g) != Some(results[g].stamp) {
          counted := counted[g := results[g].stamp];
          streaks := streaks[g := if results[g].ok then 0 else GetOr(streaks, g) + 1];
        }
        seen, answer, todo := seen', answer', todo - {g};
      }
    }

    method PollAndCount() returns (results: map<string, Run>, ghost answer: Answer)
      requires Valid()
      modifies this, gates
      ensures Valid() && results.Keys == Elements(names)
      ensures Extends(old(gates.runs), gates.runs) && old(gates.clock) <= gates.clock
      ensures AllRecent(gates.gates, results, old(gates.clock))
      ensures Observing({}, results, old(gates.runs), gates.runs, old(seen), seen, answer, counted, streaks)
    {
      results := gates.Poll(names);
      ReadyToObserve(results, old(gates.runs), gates.runs, gates.cache, gates.clock, seen, counted, streaks);
      answer := CountAll(results, old(gates.runs));
    }

    /** Sleep, look at the process, poll, count every answer, look at the process again. It is stopped for exactly
        the gates whose latest observed executions, at least `close_after` of them, all failed; and if there are any
        and the process is still live, it is stopped now. */
    method WatchOne(liveBefore: bool, liveAfter: bool) returns (ending: Ending, ghost answer: Answer)
      requires Valid()
      modifies this, gates
      ensures Valid() && Extends(old(gates.runs), gates.runs) && old(gates.clock) <= gates.clock
      ensures !liveBefore ==> ending.Gone? && seen == old(seen)
      ensures liveBefore ==>
                && Turn(gates.gates, old(Moment(gates.runs, gates.clock)), Moment(gates.runs, gates.clock), answer, names)
                && Counts(old(seen), answer, seen)
      ensures liveBefore ==> Verdict(gates.gates, gates.runs, seen, liveAfter, ending)
    {
      answer := map[];
      NamesHave(names, gates.gates.Keys);
      var pause := Pause(gates.gates, names);
      gates.Sleep(pause);
      ghost var woken := Moment(gates.runs, gates.clock);
      AllCountedStable(old(gates.runs), woken.runs, seen, counted, streaks);
      if !liveBefore { return Gone, answer; }
      var results;
      results, answer := PollAndCount();
      TurnTold(gates.gates, old(Moment(gates.runs, gates.clock)), woken, Moment(gates.runs, gates.clock), results,
               old(seen), seen, answer, counted, streaks, names);
      var closed := set g | g in results && !results[g].ok && GetOr(streaks, g) >= gates.gates[g].closeAfter;
      ClosedMeaning(gates.gates, results, woken.runs, gates.runs, old(seen), seen, answer, counted, streaks, closed);
      if closed == {} { return Watching, answer; }
      ghost var g :| g in closed;
      assert AtThreshold(gates.gates, gates.runs, seen, g);
      ending := if liveAfter then Stopped(closed) else Gone;
    }

    /** The watcher over any number of polls, from the start of an incarnation: it goes on exactly while the process
        lives and no gate is at its threshold by what the polls have observed, and stops the process at the first
        poll that brings one there if it still lives. */
    method Watch(polls: nat, live: nat -> bool)
        returns (ending: Ending, ghost answers: seq<Answer>, ghost moments: seq<Moment>)
      requires Valid() && forall g | g in seen :: seen[g] == []
      modifies this, gates
      ensures Valid() && WatchedTo(gates.gates, moments, answers, names, live)
      ensures moments[0] == old(Moment(gates.runs, gates.clock))
      ensures Extends(moments[|answers|].runs, gates.runs) && moments[|answers|].clock <= gates.clock
      ensures |answers| <= polls && Ends(gates.gates, moments[|answers|].runs, answers, polls, live, ending)
    {
      ending, answers, moments := Watching, [], [Moment(gates.runs, gates.clock)];
      StartsWatching(gates.gates, moments[0], names, live, polls, seen);
      var n := 0;
      while n < polls && ending.Watching?
        invariant Valid()
        invariant InTurn(gates.gates, old(Moment(gates.runs, gates.clock)), Moment(gates.runs, gates.clock), names, live,
                         polls, n, seen, moments, answers, ending)
        decreases polls - n, if ending.Watching? then 1 else 0
      {
        ghost var before, observed := Moment(gates.runs, gates.clock), seen;
        ghost var answer;
        ending, answer := WatchOne(live(2 * n), live(2 * n + 1));
        ghost var now := Moment(gates.runs, gates.clock);
        TurnMore(gates.gates, old(Moment(gates.runs, gates.clock)), before, now, names, live, polls, n, observed, seen,
                 moments, answers, answer, ending);
        if live(2 * n) { answers, moments, n := answers + [answer], moments + [now], n + 1; }
      }
    }
  }

  lemma NamesHave(names: seq<string>, known: set<string>)
    requires Elements(names) <= known
    ensures forall n | n in names :: n in known
  {
    forall n | n in names ensures n in known { assert n in Elements(names); }
  }

  lemma ExtendsSelf(runs: Runs)
    ensures Extends(runs, runs)
  {
  }

  /** What the watcher has counted is what the polls have observed. */
  ghost predicate SeenIsObserved(seen: map<string, Seen>, answers: seq<Answer>) {
    forall g {:trigger Observed(answers, g)} :: Observed(answers, g) == (if g in seen then seen[g] else [])
  }

  lemma SeenMore(seen: map<string, Seen>, seen': map<string, Seen>, answers: seq<Answer>, answer: Answer)
    requires SeenIsObserved(seen, answers) && Counts(seen, answer, seen')
    ensures SeenIsObserved(seen', answers + [answer])
  {
    assert (answers + [answer])[..|answers|] == answers;
    forall g ensures Observed(answers + [answer], g) == (if g in seen' then seen'[g] else []) {
      if g in seen { assert CountsAt(seen, answer, seen', g); }
      assert Observed(answers, g) == (if g in seen then seen[g] else []);
    }
  }

  lemma NothingClosed(gates: map<string, GateConfig>, runs: Runs)
    ensures NoneClosed(gates, runs, [])
  {
  }

  /** The polls so far: told, made while the process lived, and without a gate at its threshold before any of them. */
  ghost predicate WatchedTo(gates: map<string, GateConfig>, moments: seq<Moment>, answers: seq<Answer>,
                            names: seq<string>, live: nat -> bool) {
    && Told(gates, moments, answers, names) && (forall j | 0 <= j < |answers| :: live(2 * j))
    && forall j {:trigger moments[j]} | 0 <= j < |answers| :: NoneClosed(gates, moments[j].runs, answers[..j])
  }

  lemma WatchedMore(gates: map<string, GateConfig>, moments: seq<Moment>, answers: seq<Answer>, names: seq<string>,
                    live: nat -> bool, now: Moment, answer: Answer)
    requires WatchedTo(gates, moments, answers, names, live) && live(2 * |answers|)
    requires NoneClosed(gates, moments[|answers|].runs, answers)
    requires Turn(gates, moments[|answers|], now, answer, names)
    ensures WatchedTo(gates, moments + [now], answers + [answer], names, live)
  {
    ToldMore(gates, moments, answers, names, now, answer);
    forall j | 0 <= j < |answers| + 1 ensures NoneClosed(gates, (moments + [now])[j].runs, (answers + [answer])[..j]) {
      assert (answers + [answer])[..j] == answers[..j];
      if j == |answers| { assert answers[..j] == answers; } else { assert moments[j] == (moments + [now])[j]; }
    }
  }

  /** How watching ends: the polls are over, or the process was gone before a poll or after one that found a gate at
      its threshold, or it is stopped for exactly the gates at theirs. */
  ghost predicate Ends(gates: map<string, GateConfig>, runs: Runs, answers: seq<Answer>, polls: nat, live: nat -> bool,
                       ending: Ending) {
    var n := |answers|;
    match ending
    case Watching => n == polls && NoneClosed(gates, runs, answers)
    case Stopped(closed) => n > 0 && live(2 * n - 1) && closed != {} && ClosedOnly(gates, runs, answers, closed)
    case Gone =>
      || (n < polls && !live(2 * n) && NoneClosed(gates, runs, answers))
      || (n > 0 && !live(2 * n - 1) && exists g :: ClosedBy(gates, runs, answers, g))
  }

  ghost predicate ClosedOnly(gates: map<string, GateConfig>, runs: Runs, answers: seq<Answer>, closed: set<string>) {
    forall g {:trigger ClosedBy(gates, runs, answers, g)} :: g in closed <==> ClosedBy(gates, runs, answers, g)
  }

  lemma ThresholdIsClosedBy(gates: map<string, GateConfig>, runs: Runs, seen: map<string, Seen>, answers: seq<Answer>,
                            g: string)
    requires SeenIsObserved(seen, answers)
    ensures AtThreshold(gates, runs, seen, g) <==> ClosedBy(gates, runs, answers, g)
  {
    assert Observed(answers, g) == (if g in seen then seen[g] else []);
  }

  /** One turn's verdict, in terms of everything observed. */
  lemma TurnEnds(gates: map<string, GateConfig>, runs: Runs, seen: map<string, Seen>, answers: seq<Answer>,
                 polls: nat, live: nat -> bool, ending: Ending)
    requires SeenIsObserved(seen, answers) && |answers| > 0
    requires Verdict(gates, runs, seen, live(2 * |answers| - 1), ending)
    ensures if ending.Watching? then NoneClosed(gates, runs, answers) else Ends(gates, runs, answers, polls, live, ending)
  {
    forall g ensures AtThreshold(gates, runs, seen, g) <==> ClosedBy(gates, runs, answers, g) {
      ThresholdIsClosedBy(gates, runs, seen, answers, g);
    }
  }

  /** Between two turns. */
  ghost predicate InTurn(gates: map<string, GateConfig>, start: Moment, now: Moment, names: seq<string>,
                         live: nat -> bool, polls: nat, n: nat, seen: map<string, Seen>, moments: seq<Moment>,
                         answers: seq<Answer>, ending: Ending) {
    && n == |answers| <= polls && WatchedTo(gates, moments, answers, names, live)
    && moments[0] == start && Extends(moments[n].runs, now.runs) && moments[n].clock <= now.clock
    && SeenIsObserved(seen, answers)
    && if ending.Watching? then moments[n] == now && NoneClosed(gates, now.runs, answers)
       else Ends(gates, moments[n].runs, answers, polls, live, ending)
  }

  lemma StartsWatching(gates: map<string, GateConfig>, start: Moment, names: seq<string>, live: nat -> bool, polls: nat,
                       seen: map<string, Seen>)
    requires forall g | g in seen :: seen[g] == []
    ensures InTurn(gates, start, start, names, live, polls, 0, seen, [start], [], Watching)
  {
    ExtendsSelf(start.runs);
    NothingClosed(gates, start.runs);
  }

  lemma TurnMore(gates: map<string, GateConfig>, start: Moment, before: Moment, now: Moment, names: seq<string>,
                 live: nat -> bool, polls: nat, n: nat, seen: map<string, Seen>, seen': map<string, Seen>,
                 moments: seq<Moment>, answers: seq<Answer>, answer: Answer, ending: Ending)
    requires InTurn(gates, start, before, names, live, polls, n, seen, moments, answers, Watching) && n < polls
    requires Extends(before.runs, now.runs) && before.clock <= now.clock
    requires if live(2 * n)
             then Turn(gates, before, now, answer, names) && Counts(seen, answer, seen') &&
                  Verdict(gates, now.runs, seen', live(2 * n + 1), ending)
             else ending.Gone? && seen' == seen
    ensures if live(2 * n)
            then InTurn(gates, start, now, names, live, polls, n + 1, seen', moments + [now], answers + [answer],
                        ending)
            else InTurn(gates, start, now, names, live, polls, n, seen', moments, answers, ending)
  {
    if live(2 * n) {
      SeenMore(seen, seen', answers, answer);
      WatchedMore(gates, moments, answers, names, live, now, answer);
      ExtendsSelf(now.runs);
      TurnEnds(gates, now.runs, seen', answers + [answer], polls, live, ending);
    }
  }
}
