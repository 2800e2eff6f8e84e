/** The restart budget over whole runs: what is charged, what is forgiven, and when it runs out. */
module ServiceBudget {
  import opened Wrappers
  import opened ServiceModel

  /** The times of the charged exits since the service last entered `blocked`. */
  function Charges(log: seq<Event>): seq<real> {
    if |log| == 0 then []
    else
      var e := log[|log| - 1];
      var rest := log[..|log| - 1];
      if e.EnteredBlocked? then []
      else if e.Judged? && e.verdict.Charged? then Charges(rest) + [e.at]
      else Charges(rest)
  }

  function TotalCharged(log: seq<Event>): nat {
    if |log| == 0 then 0
    else
      var e := log[|log| - 1];
      TotalCharged(log[..|log| - 1]) + (if e.Judged? && e.verdict.Charged? then 1 else 0)
  }

  /** Those no older than the window when the latest of them happened. */
  function Recent(ts: seq<real>, window: real): seq<real> {
    if |ts| == 0 then [] else Young(ts, ts[|ts| - 1], window)
  }

  /** In order, and none later than now. */
  ghost predicate UpTo(ts: seq<real>, now: real) {
    (forall i | 0 <= i < |ts| :: ts[i] <= now) && forall i, j | 0 <= i < j < |ts| :: ts[i] <= ts[j]
  }

  /** `held` is the end of `ts`: those times less than a window before the last, and no other. */
  ghost predicate InWindow(ts: seq<real>, window: real, held: seq<real>) {
    exists k | 0 <= k <= |ts| :: held == ts[k..] && HeldFrom(ts, window, k)
  }

  ghost predicate HeldFrom(ts: seq<real>, window: real, k: int) {
    forall i | 0 <= i < |ts| :: i >= k <==> ts[|ts| - 1] - ts[i] < window
  }

  ghost predicate BudgetInv(c: Config, s: Svc) {
    && s.failTimes == Recent(Charges(s.log), c.window)
    && UpTo(Charges(s.log), s.now)
    && s.restarts == TotalCharged(s.log)
    && (s.pc == Ended(OverBudget) <==> |s.failTimes| > c.maxRestarts)
    && (s.pc == Ended(Overflowed) <==> MOST_DOUBLINGS < |s.failTimes| <= c.maxRestarts)
    && (!s.pc.Ended? ==> |s.failTimes| <= MOST_DOUBLINGS)
    && |s.failTimes| <= c.maxRestarts + 1
    && (s.pc.BackingOff? ==> |s.failTimes| > 0 && s.pc.delay == Backoff(c, |s.failTimes|))
  }

  lemma {:induction false} YoungAppend(ts: seq<real>, t: real, now: real, window: real)
    ensures Young(ts + [t], now, window) == Young(ts, now, window) + (if now - t < window then [t] else [])
  {
    if |ts| == 0 {
      assert Young([t][1..], now, window) == [];
    } else {
      assert (ts + [t])[1..] == ts[1..] + [t];
      YoungAppend(ts[1..], t, now, window);
    }
  }

  /** Dropping old entries early changes nothing that is asked later. */
  lemma {:induction false} YoungTwice(ts: seq<real>, earlier: real, now: real, window: real)
    requires earlier <= now
    ensures Young(Young(ts, earlier, window), now, window) == Young(ts, now, window)
  {
    if |ts| == 0 {
    } else {
      YoungTwice(ts[1..], earlier, now, window);
      var rest := Young(ts[1..], earlier, window);
      if earlier - ts[0] < window {
        assert ([ts[0]] + rest)[1..] == rest;
      } else {
        assert [] + rest == rest && [] + Young(ts[1..], now, window) == Young(ts[1..], now, window);
      }
    }
  }

  /** What `Charge` computes from the pruned list is what the full history asks for. */
  lemma RecentGrows(ts: seq<real>, now: real, window: real)
    requires UpTo(ts, now) && window > 0.0
    ensures Young(Recent(ts, window), now, window) + [now] == Recent(ts + [now], window)
  {
    YoungAppend(ts, now, now, window);
    assert (ts + [now])[|ts|] == now;
    if |ts| > 0 { YoungTwice(ts, ts[|ts| - 1], now, window); }
  }

  lemma {:induction false} YoungIsEnd(ts: seq<real>, now: real, window: real) returns (k: nat)
    requires UpTo(ts, now)
    ensures k <= |ts| && Young(ts, now, window) == ts[k..]
    ensures forall i | 0 <= i < |ts| :: i >= k <==> now - ts[i] < window
  {
    if |ts| == 0 || now - ts[0] < window {
      k := 0;
      YoungAll(ts, now, window);
    } else {
      var rest := YoungIsEnd(ts[1..], now, window);
      k := rest + 1;
      forall i | 0 < i < |ts| ensures i >= k <==> now - ts[i] < window { assert ts[i] == ts[1..][i - 1]; }
      assert ts[1..][rest..] == ts[k..] && [] + ts[k..] == ts[k..];
    }
  }

  lemma {:induction false} YoungAll(ts: seq<real>, now: real, window: real)
    requires forall i | 0 <= i < |ts| :: now - ts[i] < window
    ensures Young(ts, now, window) == ts
  {
    if |ts| == 0 {
    } else {
      YoungAll(ts[1..], now, window);
      assert [ts[0]] + ts[1..] == ts;
    }
  }

  lemma RecentInWindow(ts: seq<real>, window: real)
    requires |ts| > 0 ==> UpTo(ts, ts[|ts| - 1])
    ensures InWindow(ts, window, Recent(ts, window))
  {
    if |ts| > 0 {
      var k := YoungIsEnd(ts, ts[|ts| - 1], window);
      assert HeldFrom(ts, window, k);
    } else {
      assert ts[0..] == [] && HeldFrom(ts, window, 0);
    }
  }

  lemma LogGrows(log: seq<Event>, e: Event)
    ensures Charges(log + [e]) == (if e.EnteredBlocked? then []
                                   else if e.Judged? && e.verdict.Charged? then Charges(log) + [e.at]
                                   else Charges(log))
    ensures TotalCharged(log + [e]) == TotalCharged(log) + (if e.Judged? && e.verdict.Charged? then 1 else 0)
  {
    assert (log + [e])[..|log|] == log;
  }

  lemma ChargeKeeps(c: Config, s: Svc, inc: Option<Inc>, code: int)
    requires ValidConfig(c) && BudgetInv(c, s) && !s.pc.Ended?
    ensures BudgetInv(c, Charge(c, s, inc, code))
  {
    RecentGrows(Charges(s.log), s.now, c.window);
    LogGrows(s.log, Judged(inc, code, Charged, s.now));
    YoungShrinks(s.failTimes, s.now, c.window);
  }

  lemma {:induction false} YoungShrinks(ts: seq<real>, now: real, window: real)
    ensures |Young(ts, now, window)| <= |ts|
  {
    if |ts| == 0 {
    } else {
      YoungShrinks(ts[1..], now, window);
    }
  }

  /** Events that neither charge nor forgive. */
  lemma NoteKeeps(c: Config, s: Svc, e: Event, s': Svc)
    requires BudgetInv(c, s) && !s.pc.Ended?
    requires !e.EnteredBlocked? && !(e.Judged? && e.verdict.Charged?)
    requires s'.log == s.log + [e] && s'.failTimes == s.failTimes && s'.restarts == s.restarts && s'.now == s.now
    requires s'.pc != Ended(OverBudget) && s'.pc != Ended(Overflowed) && !s'.pc.BackingOff?
    ensures BudgetInv(c, s')
  {
    LogGrows(s.log, e);
  }

  lemma ClassifyKeeps(c: Config, s: Svc, inc: Option<Inc>, code: int)
    requires ValidConfig(c) && BudgetInv(c, s) && !s.pc.Ended?
    ensures BudgetInv(c, Classify(c, s, inc, code))
  {
    var s' := Classify(c, s, inc, code);
    if s.stopping {
    } else if s.gateStop {
      NoteKeeps(c, s, Judged(inc, code, GateStopped(s.bounce), s.now), s');
    } else if s.bounce {
      NoteKeeps(c, s, Judged(inc, code, Bounced, s.now), s');
    } else if code in c.noRetry {
      NoteKeeps(c, s, Judged(inc, code, NoRetry, s.now), s');
    } else if |c.gates| == 0 {
      ChargeKeeps(c, s, inc, code);
    }
  }

  lemma GateKeeps(c: Config, s: Svc, a: GateAct)
    requires BudgetInv(c, s) && CanGate(c, s, a)
    ensures BudgetInv(c, StepGate(c, s, a))
  {
    match a
    case LoopTop => LogGrows(s.log, Attempt);
    case GateAnswer(failing) =>
      LogGrows(s.log, GateRound(failing));
      LogGrows(s.log + [GateRound(failing)], Attempt);
      LogGrows(s.log + [GateRound(failing)], EnteredBlocked);
    case ParkWake =>
    case ParkAnswer(failing) => LogGrows(s.log, GateRound(failing));
  }

  lemma JudgeKeeps(c: Config, s: Svc, a: JudgeAct)
    requires ValidConfig(c) && BudgetInv(c, s) && CanJudge(c, s, a)
    ensures BudgetInv(c, StepJudge(c, s, a))
  {
    match a
    case Drained => ClassifyKeeps(c, s.(ready := false), s.life.proc, s.life.codes[s.life.proc.value]);
    case JudgeAnswer(failing) =>
      var s' := s.(log := s.log + [GateRound(failing)]);
      NoteKeeps(c, s, GateRound(failing), s');
      if |failing| == 0 { ChargeKeeps(c, s', s.pc.inc, s.pc.code); }
      else { NoteKeeps(c, s', Judged(s.pc.inc, s.pc.code, GateFailing, s.now), StepJudge(c, s, a)); }
    case BackoffOver =>
  }

  lemma EnvKeeps(c: Config, s: Svc, a: EnvAct)
    requires BudgetInv(c, s) && CanEnv(s, a)
    ensures BudgetInv(c, StepEnv(s, a))
  {
  }

  lemma DepKeeps(c: Config, s: Svc, a: DepAct)
    requires BudgetInv(c, s) && CanDep(c, s, a)
    ensures BudgetInv(c, StepDep(c, s, a))
  {
  }

  lemma SpawnKeeps(c: Config, s: Svc, a: SpawnAct)
    requires ValidConfig(c) && BudgetInv(c, s) && CanSpawn(s, a)
    ensures BudgetInv(c, StepSpawn(c, s, a))
  {
    if !a.ok { ClassifyKeeps(c, s, None, 127); }
  }

  lemma RunKeeps(c: Config, s: Svc, a: RunAct)
    requires BudgetInv(c, s) && CanRun(s, a)
    ensures BudgetInv(c, StepRun(s, a))
  {
    LogGrows(s.log, BecameReady);
  }

  lemma CallKeeps(c: Config, s: Svc, a: CallAct)
    requires BudgetInv(c, s) && CanCall(s, a)
    ensures BudgetInv(c, StepCall(s, a))
  {
    CallCosts(s, a);
    Unpriced(c, s, StepCall(s, a));
  }

  lemma CallCosts(s: Svc, a: CallAct)
    requires CanCall(s, a)
    ensures Costless(s, StepCall(s, a))
  {
  }

  predicate Costless(s: Svc, s': Svc) {
    && s'.log == s.log && s'.failTimes == s.failTimes && s'.restarts == s.restarts && s'.now == s.now && s'.pc == s.pc
  }

  lemma Unpriced(c: Config, s: Svc, s': Svc)
    requires BudgetInv(c, s) && Costless(s, s')
    ensures BudgetInv(c, s')
  {
  }

  lemma WatchKeeps(c: Config, s: Svc, a: WatchAct)
    requires BudgetInv(c, s) && CanWatch(s, a)
    ensures BudgetInv(c, StepWatch(s, a))
  {
  }

  lemma BudgetStep(c: Config, s: Svc, a: Action)
    requires ValidConfig(c) && BudgetInv(c, s) && Enabled(c, s, a)
    ensures BudgetInv(c, Step(c, s, a))
  {
    match a
    case Env(e) => EnvKeeps(c, s, e);
    case Dep(d) => DepKeeps(c, s, d);
    case Gate(g) => GateKeeps(c, s, g);
    case Spawn(p) => SpawnKeeps(c, s, p);
    case Run(r) => RunKeeps(c, s, r);
    case Judge(j) => JudgeKeeps(c, s, j);
    case Watch(w) => WatchKeeps(c, s, w);
    case Call(k) => CallKeeps(c, s, k);
  }

  /** Over every run with a nondecreasing clock: the failure times held are exactly the charged exits since
      the last entry into `blocked` that were inside the window at the latest of them; the instance has
      failed on the budget exactly when they exceed `max_restarts`; the run loop has died of an overflow
      exactly when they do not and exceed 1024; and `restarts` counts every charge. */
  lemma {:induction false} BudgetIsExact(c: Config, acts: seq<Action>)
    requires ValidConfig(c) && After(c, acts).Some?
    ensures BudgetInv(c, After(c, acts).value)
  {
    if |acts| == 0 {
    } else {
      BudgetIsExact(c, acts[..|acts| - 1]);
      BudgetStep(c, After(c, acts[..|acts| - 1]).value, acts[|acts| - 1]);
    }
  }

  lemma HeldInWindow(c: Config, s: Svc)
    requires BudgetInv(c, s)
    ensures InWindow(Charges(s.log), c.window, s.failTimes)
  {
    RecentInWindow(Charges(s.log), c.window);
  }

  lemma {:induction false} Pow2Grows(m: nat, n: nat)
    requires m <= n
    ensures 1.0 <= Pow2(m) <= Pow2(n)
    decreases n
  {
    if n == 0 {
    } else if m < n {
      Pow2Grows(m, n - 1);
    } else {
      Pow2Grows(n - 1, n - 1);
    }
  }

  /** Each backoff that is computed at all lies in (0, backoff_max] and never shrinks as the count grows. */
  lemma BackoffLaw(c: Config, m: nat, n: nat)
    requires ValidConfig(c) && 0 < m <= n <= MOST_DOUBLINGS
    ensures 0.0 < Backoff(c, m) <= Backoff(c, n) <= c.backoffMax
  {
    Pow2Grows(m - 1, n - 1);
    assert c.backoffInitial * Pow2(m - 1) <= c.backoffInitial * Pow2(n - 1);
    assert c.backoffInitial * Pow2(m - 1) >= c.backoffInitial * 1.0;
  }

  /** The first delay is the initial one and each next one is twice as long, up to the maximum. */
  lemma BackoffDoubles(c: Config, n: nat)
    requires ValidConfig(c) && n > 0
    ensures Backoff(c, 1) == (if c.backoffInitial < c.backoffMax then c.backoffInitial else c.backoffMax)
    ensures Backoff(c, n + 1) == (if 2.0 * Backoff(c, n) < c.backoffMax then 2.0 * Backoff(c, n) else c.backoffMax)
  {
    assert Pow2(0) == 1.0 && Pow2(n) == 2.0 * Pow2(n - 1);
    assert c.backoffInitial * Pow2(n) == 2.0 * (c.backoffInitial * Pow2(n - 1));
  }
}
