/** When `stop` can leave a process behind. */
module ServiceStop {
  import opened Wrappers
  import opened ServiceModel
  import opened ServiceKills
  import opened ServiceFairness
  import opened ServiceStart

  /** A spawn is under way: the gates have been asked, or the render or the start of the process has begun. */
  predicate InSpawn(pc: Pc) {
    pc.Gating? || pc.Rendering? || pc.Forking?
  }

  /** Stopping, with no spawn under way and no process started since. */
  predicate Settled(s: Svc) {
    s.stopping && !InSpawn(s.pc) && s.life.next == s.stopNext
  }

  lemma SettledCall(s: Svc, a: CallAct)
    requires Settled(s) && StopInv(s) && CanCall(s, a)
    ensures Settled(StepCall(s, a))
  {
  }

  lemma SettledJudge(c: Config, s: Svc, a: JudgeAct)
    requires Settled(s) && CanJudge(c, s, a)
    ensures Settled(StepJudge(c, s, a))
  {
  }

  /** No spawn begins once the service is stopping. */
  lemma SettledStep(c: Config, s: Svc, a: Action)
    requires Settled(s) && StopInv(s) && Enabled(c, s, a)
    ensures Settled(Step(c, s, a))
  {
    match a
    case Judge(j) => SettledJudge(c, s, j);
    case Call(k) => SettledCall(s, k);
    case _ =>
  }

  lemma {:induction false} StaysSettled(c: Config, acts: seq<Action>, more: seq<Action>)
    requires After(c, acts + more).Some?
    ensures After(c, acts).Some?
    ensures Settled(After(c, acts).value) ==> Settled(After(c, acts + more).value)
  {
    if |more| == 0 {
      assert acts + more == acts;
    } else {
      var shorter := more[..|more| - 1];
      assert (acts + more)[..|acts + more| - 1] == acts + shorter;
      StaysSettled(c, acts, shorter);
      if Settled(After(c, acts).value) {
        StopLeavesAtMostOne(c, acts + shorter);
        SettledStep(c, After(c, acts + shorter).value, more[|more| - 1]);
      }
    }
  }

  /** `stop` has returned and a process runs that was never sent SIGKILL. */
  ghost predicate Outlived(c: Config, acts: seq<Action>) {
    After(c, acts).Some? &&
    var s := After(c, acts).value;
    s.stopper.StopDone? && Live(s.life) && !Killed(s.signals, s.life.proc.value)
  }

  /** After the call `stop` settles a service with no spawn under way. */
  lemma StopSettles(c: Config, acts: seq<Action>, more: seq<Action>)
    requires After(c, acts).Some? && !InSpawn(After(c, acts).value.pc)
    ensures !Outlived(c, acts + [Call(StopCall)] + more)
  {
    var stopped := acts + [Call(StopCall)];
    assert stopped[..|acts|] == acts;
    if After(c, stopped + more).Some? {
      StaysSettled(c, stopped, more);
      StopLeavesAtMostOne(c, stopped + more);
      NoStrayKill(c, stopped + more);
    }
  }

  function NextInSpawn(pc: Pc): Action
    requires InSpawn(pc)
  {
    if pc.Gating? then Gate(GateAnswer([])) else if pc.Rendering? then Spawn(RenderDone(true)) else Spawn(ForkDone(true, false))
  }

  predicate Unhurt(s: Svc) {
    s.stopper.StopDone? && s.life.next !in s.life.codes
  }

  lemma SpawnStep(c: Config, s: Svc)
    requires InSpawn(s.pc) && Unhurt(s)
    ensures Enabled(c, s, NextInSpawn(s.pc))
    ensures var s' := Step(c, s, NextInSpawn(s.pc));
            && s'.signals == s.signals && s'.stopper == s.stopper
            && if s.pc.Forking? then Live(s'.life) && s'.life.proc == Some(s.life.next)
               else InSpawn(s'.pc) && !s'.pc.Gating? && (s.pc.Rendering? ==> s'.pc.Forking?) && s'.life == s.life
  {
  }

  /** The rest of a spawn under way, with `stop` already returned. */
  lemma {:induction false} SpawnGoesOn(c: Config, acts: seq<Action>, s: Svc) returns (more: seq<Action>)
    requires After(c, acts) == Some(s) && InSpawn(s.pc) && Unhurt(s) && !Killed(s.signals, s.life.next)
    ensures Outlived(c, acts + more)
    decreases if s.pc.Gating? then 2 else if s.pc.Rendering? then 1 else 0
  {
    var a := NextInSpawn(s.pc);
    SpawnStep(c, s);
    var acts', s' := Do(c, acts, s, a);
    if s.pc.Forking? {
      more := [a];
    } else {
      var rest := SpawnGoesOn(c, acts', s');
      more := [a] + rest;
      assert acts + more == acts' + rest;
    }
  }

  /** Called during a spawn, `stop` finds nothing to signal and returns. */
  lemma StopInSpawn(c: Config, acts: seq<Action>, s: Svc) returns (acts': seq<Action>, s': Svc)
    requires After(c, acts) == Some(s) && CanCall(s, StopCall) && InSpawn(s.pc)
    ensures acts' == acts + [Call(StopCall)] && After(c, acts') == Some(s')
    ensures InSpawn(s'.pc) && Unhurt(s') && !Killed(s'.signals, s'.life.next)
  {
    NoStrayKill(c, acts);
    VerdictsAreDeserved(c, acts);
    acts', s' := Do(c, acts, s, Call(StopCall));
    KilledGrows(s.signals, s'.signals[|s.signals|], s.life.next);
  }

  /** Exactly when a call of `stop` can leave a process running that nothing kills, if the containment knows a process
      once it is registered: when it finds the run loop between asking the gates and starting the process. */
  lemma StopMissesExactly(c: Config, acts: seq<Action>)
    requires After(c, acts).Some? && CanCall(After(c, acts).value, StopCall)
    ensures (exists more :: Outlived(c, acts + [Call(StopCall)] + more)) <==> InSpawn(After(c, acts).value.pc)
  {
    var s := After(c, acts).value;
    if InSpawn(s.pc) {
      var acts', s' := StopInSpawn(c, acts, s);
      var more := SpawnGoesOn(c, acts', s');
    } else {
      forall more ensures !Outlived(c, acts + [Call(StopCall)] + more) { StopSettles(c, acts, more); }
    }
  }
}
