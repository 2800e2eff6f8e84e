/** When the run loop dies of computing its own backoff. */
module ServiceOverflow {
  import opened Sets
  import opened Wrappers
  import opened ServiceModel
  import opened ServiceKills
  import opened ServiceBudget

  /** How long the first n backoffs take. */
  function Slept(c: Config, n: nat): real {
    if n == 0 then 0.0 else Slept(c, n - 1) + Backoff(c, n)
  }

  lemma {:induction false} SleptGrows(c: Config, m: nat, n: nat)
    requires ValidConfig(c) && m <= n <= MOST_DOUBLINGS
    ensures 0.0 <= Slept(c, m) <= Slept(c, n)
    decreases n
  {
    if n == 0 {
    } else {
      BackoffLaw(c, n, n);
      SleptGrows(c, if m < n then m else n - 1, n - 1);
    }
  }

  // ---- What every run keeps ----------------------------------------------------------------------------

  ghost predicate PacedAt(c: Config, ts: seq<real>, i: nat) {
    i + 1 < |ts| && Backoff(c, i + 1) <= ts[i + 1] - ts[i]
  }

  /** Between two charges lies at least the backoff that follows the first of them. */
  ghost predicate Paced(c: Config, ts: seq<real>) {
    forall i: nat {:trigger PacedAt(c, ts, i)} | i + 1 < |ts| :: PacedAt(c, ts, i)
  }

  function Latest(ts: seq<real>): real
    requires |ts| > 0
  {
    ts[|ts| - 1]
  }

  /** The charges held are paced, and inside the window of the latest. */
  ghost predicate Kept(c: Config, ts: seq<real>, now: real) {
    Paced(c, ts) && |ts| <= MOST_DOUBLINGS + 1 && (|ts| > 0 ==> Latest(ts) <= now && Latest(ts) - ts[0] < c.window)
  }

  /** The backoff after the latest charge is under way, or has been slept through. */
  predicate Rested(c: Config, ts: seq<real>, now: real, pc: Pc, stopping: bool) {
    if pc.BackingOff? then 0 < |ts| <= MOST_DOUBLINGS && pc.delay == Backoff(c, |ts|) && pc.began == Latest(ts)
    else pc.Ended? || (stopping && pc.Top?) || Waited(c, ts, now)
  }

  predicate Waited(c: Config, ts: seq<real>, now: real) {
    |ts| <= MOST_DOUBLINGS && (|ts| > 0 ==> Backoff(c, |ts|) <= now - Latest(ts))
  }

  ghost predicate PaceInv(c: Config, s: Svc) {
    Kept(c, s.failTimes, s.now) && Rested(c, s.failTimes, s.now, s.pc, s.stopping)
  }

  /** Charges rise, so what leaves the window leaves at the front. */
  lemma {:induction false} YoungIsSuffix(c: Config, ts: seq<real>, now: real, window: real) returns (k: nat)
    requires ValidConfig(c) && Rises(ts)
    ensures k <= |ts| && Young(ts, now, window) == ts[k..]
    ensures forall i | k <= i < |ts| :: now - ts[i] < window
  {
    if |ts| == 0 {
      k := 0;
    } else if now - ts[0] < window {
      k := 0;
      forall i | 0 <= i < |ts| ensures now - ts[i] < window { assert ts[0] <= ts[i]; }
      AllYoung(ts, now, window);
    } else {
      assert Rises(ts[1..]);
      k := YoungIsSuffix(c, ts[1..], now, window);
      assert ts[1..][k..] == ts[k + 1..];
      forall i | k + 1 <= i < |ts| ensures now - ts[i] < window { assert ts[1..][i - 1] == ts[i]; }
      k := k + 1;
    }
  }

  predicate Rises(ts: seq<real>) {
    forall i, j | 0 <= i <= j < |ts| :: ts[i] <= ts[j]
  }

  lemma {:induction false} AllYoung(ts: seq<real>, now: real, window: real)
    requires forall i | 0 <= i < |ts| :: now - ts[i] < window
    ensures Young(ts, now, window) == ts
  {
    if |ts| == 0 {
    } else {
      forall i | 0 <= i < |ts[1..]| ensures now - ts[1..][i] < window { assert ts[1..][i] == ts[i + 1]; }
      AllYoung(ts[1..], now, window);
    }
  }

  lemma {:induction false} PacedRises(c: Config, ts: seq<real>, i: nat, j: nat)
    requires ValidConfig(c) && Paced(c, ts) && i <= j < |ts| <= MOST_DOUBLINGS + 1
    ensures ts[i] <= ts[j]
  {
    if i == j {
    } else {
      PacedRises(c, ts, i, j - 1);
      assert PacedAt(c, ts, j - 1);
      BackoffLaw(c, j, j);
    }
  }

  /** One more charge, after the wait: the remaining ones are no closer to each other than their new places ask. */
  lemma PacedGrows(c: Config, ts: seq<real>, k: nat, now: real)
    requires ValidConfig(c) && Paced(c, ts) && k <= |ts| && Waited(c, ts, now)
    ensures Paced(c, ts[k..] + [now])
  {
    var more := ts[k..] + [now];
    forall i: nat | i + 1 < |more| ensures PacedAt(c, more, i) {
      assert more[i] == ts[k + i];
      if k + i + 1 < |ts| { assert PacedAt(c, ts, k + i) && more[i + 1] == ts[k + i + 1]; }
      BackoffLaw(c, i + 1, k + i + 1);
    }
  }

  lemma ChargeKept(c: Config, ts: seq<real>, now: real) returns (k: nat)
    requires ValidConfig(c) && Kept(c, ts, now) && Waited(c, ts, now)
    ensures k <= |ts| && Young(ts, now, c.window) == ts[k..] && Kept(c, ts[k..] + [now], now)
  {
    forall i, j | 0 <= i <= j < |ts| ensures ts[i] <= ts[j] { PacedRises(c, ts, i, j); }
    k := YoungIsSuffix(c, ts, now, c.window);
    PacedGrows(c, ts, k, now);
  }

  lemma ChargePaced(c: Config, s: Svc, inc: Option<Inc>, code: int)
    requires ValidConfig(c) && Kept(c, s.failTimes, s.now) && Waited(c, s.failTimes, s.now)
    ensures PaceInv(c, Charge(c, s, inc, code))
  {
    var k := ChargeKept(c, s.failTimes, s.now);
  }

  lemma ClassifyPaced(c: Config, s: Svc, inc: Option<Inc>, code: int)
    requires ValidConfig(c) && Kept(c, s.failTimes, s.now) && Waited(c, s.failTimes, s.now)
    ensures PaceInv(c, Classify(c, s, inc, code))
  {
    if !s.stopping && !s.gateStop && !s.bounce && code !in c.noRetry && |c.gates| == 0 { ChargePaced(c, s, inc, code); }
  }

  lemma NothingKept(c: Config, now: real)
    requires ValidConfig(c)
    ensures Kept(c, [], now) && Waited(c, [], now)
  {
  }

  lemma GatePaced(c: Config, s: Svc, a: GateAct)
    requires ValidConfig(c) && PaceInv(c, s) && CanGate(c, s, a)
    ensures PaceInv(c, StepGate(c, s, a))
  {
    NothingKept(c, s.now);
  }

  lemma JudgePaced(c: Config, s: Svc, a: JudgeAct)
    requires ValidConfig(c) && PaceInv(c, s) && CanJudge(c, s, a)
    ensures PaceInv(c, StepJudge(c, s, a))
  {
    match a
    case Drained => ClassifyPaced(c, s.(ready := false), s.life.proc, s.life.codes[s.life.proc.value]);
    case JudgeAnswer(failing) =>
      if |failing| == 0 { ChargePaced(c, s.(log := s.log + [GateRound(failing)]), s.pc.inc, s.pc.code); }
    case BackoffOver =>
  }

  /** A step that neither charges nor forgives, and leaves a backoff alone. */
  lemma OtherPaced(c: Config, s: Svc, s': Svc)
    requires PaceInv(c, s) && s'.failTimes == s.failTimes && s.now <= s'.now
    requires s'.pc == s.pc || (!s.pc.BackingOff? && !s.pc.Ended? && !s.pc.Top? && !s'.pc.BackingOff?)
    requires s.stopping ==> s'.stopping
    ensures PaceInv(c, s')
  {
  }

  lemma CallPaced(c: Config, s: Svc, a: CallAct)
    requires PaceInv(c, s) && CanCall(s, a)
    ensures PaceInv(c, StepCall(s, a))
  {
    OtherPaced(c, s, StepCall(s, a));
  }

  lemma RunPaced(c: Config, s: Svc, a: RunAct)
    requires PaceInv(c, s) && CanRun(s, a)
    ensures PaceInv(c, StepRun(s, a))
  {
    OtherPaced(c, s, StepRun(s, a));
  }

  lemma WatchPaced(c: Config, s: Svc, a: WatchAct)
    requires PaceInv(c, s) && CanWatch(s, a)
    ensures PaceInv(c, StepWatch(s, a))
  {
    OtherPaced(c, s, StepWatch(s, a));
  }

  lemma StepPaced(c: Config, s: Svc, a: Action)
    requires ValidConfig(c) && PaceInv(c, s) && Enabled(c, s, a)
    ensures PaceInv(c, Step(c, s, a))
  {
    match a
    case Gate(g) => GatePaced(c, s, g);
    case Spawn(p) => if !p.ok { ClassifyPaced(c, s, None, 127); } else { OtherPaced(c, s, StepSpawn(c, s, p)); }
    case Judge(j) => JudgePaced(c, s, j);
    case Call(k) => CallPaced(c, s, k);
    case Env(e) => OtherPaced(c, s, StepEnv(s, e));
    case Dep(d) => OtherPaced(c, s, StepDep(c, s, d));
    case Run(r) => RunPaced(c, s, r);
    case Watch(w) => WatchPaced(c, s, w);
  }

  lemma {:induction false} AlwaysPaced(c: Config, acts: seq<Action>)
    requires ValidConfig(c) && After(c, acts).Some?
    ensures PaceInv(c, After(c, acts).value)
  {
    if |acts| == 0 {
    } else {
      AlwaysPaced(c, acts[..|acts| - 1]);
      StepPaced(c, After(c, acts[..|acts| - 1]).value, acts[|acts| - 1]);
    }
  }

  lemma {:induction false} PacedTakes(c: Config, ts: seq<real>, n: nat)
    requires ValidConfig(c) && Paced(c, ts) && n < |ts| && n <= MOST_DOUBLINGS
    ensures Slept(c, n) <= ts[n] - ts[0]
  {
    if n == 0 {
    } else {
      PacedTakes(c, ts, n - 1);
      assert PacedAt(c, ts, n - 1);
    }
  }

  lemma OverflowTakes(c: Config, acts: seq<Action>)
    requires ValidConfig(c) && Overflows(c, acts)
    ensures c.maxRestarts > MOST_DOUBLINGS && Slept(c, MOST_DOUBLINGS) < c.window
  {
    BudgetIsExact(c, acts);
    AlwaysPaced(c, acts);
    PacedTakes(c, After(c, acts).value.failTimes, MOST_DOUBLINGS);
  }

  // ---- A run that overflows ----------------------------------------------------------------------------

  /** At the top of the loop, with nobody asking for anything, after this many charges, each a backoff after the one
      before. */
  predicate Idle(c: Config, s: Svc, charged: nat) {
    && s.pc.Top? && !s.stopping && !s.gateStop && !s.bounce
    && s.failTimes == Paces(c, charged) && s.now == Slept(c, charged)
    && !Live(s.life) && s.life.gateW.Off? && s.life.pathW.Off?
  }

  function Paces(c: Config, n: nat): (ts: seq<real>)
    ensures |ts| == n
  {
    if n == 0 then [] else Paces(c, n - 1) + [Slept(c, n - 1)]
  }

  lemma {:induction false} PacesAre(c: Config, n: nat, i: nat)
    requires i < n
    ensures Paces(c, n)[i] == Slept(c, i)
  {
    if i == n - 1 {
    } else {
      PacesAre(c, n - 1, i);
    }
  }

  lemma PacesAreYoung(c: Config, n: nat)
    requires ValidConfig(c) && n <= MOST_DOUBLINGS && Slept(c, MOST_DOUBLINGS) < c.window
    ensures Young(Paces(c, n), Slept(c, n), c.window) == Paces(c, n)
  {
    SleptGrows(c, n, MOST_DOUBLINGS);
    forall i | 0 <= i < n ensures Slept(c, n) - Paces(c, n)[i] < c.window {
      PacesAre(c, n, i);
      SleptGrows(c, i, n);
    }
    AllYoung(Paces(c, n), Slept(c, n), c.window);
  }

  /** The dependencies become ready one after the other. */
  lemma {:induction false} PastDependencies(c: Config, k: nat, acts: seq<Action>, s: Svc)
      returns (acts': seq<Action>, s': Svc)
    requires After(c, acts) == Some(s) && k < |c.after| && s.pc.Depending? && s.pc.k == k
    requires s == Init(c).(pc := s.pc)
    ensures After(c, acts') == Some(s') && s' == Init(c).(pc := Top)
    decreases |c.after| - k
  {
    acts', s' := acts, s;
    if !s.pc.woken { acts', s' := Do(c, acts', s', Dep(DepWake)); }
    acts', s' := Do(c, acts', s', Dep(DepGo(false)));
    if k + 1 == |c.after| {
    } else {
      acts', s' := PastDependencies(c, k + 1, acts', s');
    }
  }

  lemma ToTop(c: Config) returns (acts: seq<Action>, s: Svc)
    ensures After(c, acts) == Some(s) && Idle(c, s, 0)
  {
    acts, s := [], Init(c);
    if |c.after| > 0 { acts, s := PastDependencies(c, 0, acts, s); }
  }

  /** One spawn attempt, up to the process. */
  lemma Launched(c: Config, acts: seq<Action>, s: Svc) returns (acts': seq<Action>, s': Svc)
    requires After(c, acts) == Some(s) && s.pc.Top? && !s.stopping
    ensures After(c, acts') == Some(s')
    ensures s' == s.(pc := Probing, log := s'.log, life := Forked(c, s.life, false))
  {
    acts', s' := Do(c, acts, s, Gate(LoopTop));
    if |c.gates| > 0 { acts', s' := Do(c, acts', s', Gate(GateAnswer([]))); }
    acts', s' := Do(c, acts', s', Spawn(RenderDone(true)));
    acts', s' := Do(c, acts', s', Spawn(ForkDone(true, false)));
  }

  /** It exits, and its watchers go. */
  lemma Exits(c: Config, acts: seq<Action>, s: Svc, code: int) returns (acts': seq<Action>, s': Svc)
    requires After(c, acts) == Some(s) && s.pc.Probing? && Live(s.life) && s.life.pathW.Off? && !s.life.gateW.Terminating?
    ensures After(c, acts') == Some(s')
    ensures s' == s.(pc := Draining, signals := s'.signals,
                     life := s.life.(codes := s.life.codes[s.life.proc.value := code], gateW := Off))
  {
    acts', s' := Do(c, acts, s, Env(Exited(code)));
    if s'.life.gateW.Polling? { acts', s' := Do(c, acts', s', Watch(GateQuit)); }
    acts', s' := Do(c, acts', s', Run(ProbeEnds(false)));
    acts', s' := Do(c, acts', s', Run(SeeExit));
    acts', s' := Do(c, acts', s', Run(Reaped));
  }

  /** The exit is charged: the gates, if there are any, all pass. */
  lemma Charged(c: Config, acts: seq<Action>, s: Svc, n: nat) returns (acts': seq<Action>, s': Svc)
    requires After(c, acts) == Some(s) && s.pc.Draining? && s.life.proc.Some? && !Live(s.life)
    requires !s.stopping && !s.gateStop && !s.bounce && s.life.codes[s.life.proc.value] !in c.noRetry
    requires ValidConfig(c) && n <= MOST_DOUBLINGS && Slept(c, MOST_DOUBLINGS) < c.window
    requires s.failTimes == Paces(c, n) && s.now == Slept(c, n)
    ensures After(c, acts') == Some(s') && s'.failTimes == Paces(c, n + 1)
    ensures s' == s.(pc := s'.pc, failTimes := s'.failTimes, restarts := s'.restarts, ready := false, log := s'.log)
    ensures s'.pc == if n + 1 > c.maxRestarts then Ended(OverBudget)
                     else if n + 1 > MOST_DOUBLINGS then Ended(Overflowed)
                     else BackingOff(Backoff(c, n + 1), s.now)
  {
    PacesAreYoung(c, n);
    acts', s' := Do(c, acts, s, Judge(Drained));
    if |c.gates| > 0 { acts', s' := Do(c, acts', s', Judge(JudgeAnswer([]))); }
  }

  /** The backoff, slept through to its end. */
  lemma SleepsItOut(c: Config, acts: seq<Action>, s: Svc, n: nat) returns (acts': seq<Action>, s': Svc)
    requires ValidConfig(c) && After(c, acts) == Some(s) && n < MOST_DOUBLINGS && s.now == Slept(c, n)
    requires s.pc == BackingOff(Backoff(c, n + 1), s.now)
    ensures After(c, acts') == Some(s') && s' == s.(pc := Top, now := Slept(c, n + 1))
  {
    BackoffLaw(c, n + 1, n + 1);
    acts', s' := Do(c, acts, s, Env(Tick(Backoff(c, n + 1))));
    acts', s' := Do(c, acts', s', Judge(BackoffOver));
  }

  /** One more crash. */
  lemma OneCrash(c: Config, acts: seq<Action>, s: Svc, n: nat) returns (acts': seq<Action>, s': Svc)
    requires ValidConfig(c) && After(c, acts) == Some(s) && Idle(c, s, n) && n < c.maxRestarts && n <= MOST_DOUBLINGS
    requires Slept(c, MOST_DOUBLINGS) < c.window
    ensures After(c, acts') == Some(s')
    ensures if n < MOST_DOUBLINGS then Idle(c, s', n + 1) else s'.pc == Ended(Overflowed)
  {
    var code := Above(c.noRetry);
    NoStrayKill(c, acts);
    acts', s' := Launched(c, acts, s);
    acts', s' := LaunchedExits(c, acts', s', s, code);
    acts', s' := Charged(c, acts', s', n);
    if n < MOST_DOUBLINGS { acts', s' := SleepsItOut(c, acts', s', n); }
  }

  lemma LaunchedExits(c: Config, acts: seq<Action>, s: Svc, top: Svc, code: int) returns (acts': seq<Action>, s': Svc)
    requires After(c, acts) == Some(s) && s == top.(pc := Probing, log := s.log, life := Forked(c, top.life, false))
    requires top.life.next !in top.life.codes
    ensures After(c, acts') == Some(s') && s'.pc.Draining? && s'.life.proc.Some? && !Live(s'.life)
    ensures s'.life.codes[s'.life.proc.value] == code && s'.life.gateW.Off? && s'.life.pathW.Off?
    ensures s' == s.(pc := s'.pc, signals := s'.signals, life := s'.life)
  {
    acts', s' := Exits(c, acts, s, code);
  }

  lemma {:induction false} ManyCrashes(c: Config, n: nat) returns (acts: seq<Action>, s: Svc)
    requires ValidConfig(c) && n <= c.maxRestarts && n <= MOST_DOUBLINGS && Slept(c, MOST_DOUBLINGS) < c.window
    ensures After(c, acts) == Some(s) && Idle(c, s, n)
  {
    if n == 0 {
      acts, s := ToTop(c);
    } else {
      acts, s := ManyCrashes(c, n - 1);
      acts, s := OneCrash(c, acts, s, n - 1);
    }
  }

  ghost predicate Overflows(c: Config, acts: seq<Action>) {
    After(c, acts).Some? && After(c, acts).value.pc == Ended(Overflowed)
  }

  /** A service can die of computing its backoff exactly if it is allowed more than 1024 restarts and the first 1024
      backoffs together are shorter than the window. */
  lemma OverflowsExactly(c: Config)
    requires ValidConfig(c)
    ensures (exists acts :: Overflows(c, acts)) <==>
            c.maxRestarts > MOST_DOUBLINGS && Slept(c, MOST_DOUBLINGS) < c.window
  {
    if acts :| Overflows(c, acts) { OverflowTakes(c, acts); }
    if c.maxRestarts > MOST_DOUBLINGS && Slept(c, MOST_DOUBLINGS) < c.window {
      var acts, s := ManyCrashes(c, MOST_DOUBLINGS);
      acts, s := OneCrash(c, acts, s, MOST_DOUBLINGS);
      assert Overflows(c, acts);
    }
  }

  /** The default configuration cannot. */
  lemma DefaultsNeverOverflow(c: Config)
    requires ValidConfig(c) && c.window <= 60.0 && c.backoffInitial >= 0.5 && c.backoffMax >= 15.0
    ensures !exists acts :: Overflows(c, acts)
  {
    OverflowsExactly(c);
    assert Backoff(c, 1) >= 0.5 && Backoff(c, 2) >= 1.0 && Backoff(c, 3) >= 2.0 && Backoff(c, 4) >= 4.0 by {
      assert Pow2(0) == 1.0 && Pow2(1) == 2.0 && Pow2(2) == 4.0 && Pow2(3) == 8.0;
    }
    assert Pow2(4) == 16.0 by { assert Pow2(3) == 8.0; }
    assert Backoff(c, 5) >= 8.0;
    assert Pow2(5) == 32.0;
    assert Backoff(c, 6) >= 15.0;
    BackoffLaw(c, 6, 7);
    BackoffLaw(c, 6, 8);
    assert Slept(c, 2) >= 1.5 by { assert Slept(c, 1) >= 0.5; }
    assert Slept(c, 4) >= 7.5;
    assert Slept(c, 6) >= 30.5;
    assert Slept(c, 8) >= 60.0;
    SleptGrows(c, 8, MOST_DOUBLINGS);
  }
}
