/** A service's rounds of its gates: the run loop, its waits in `blocked` and its exit classification, asking the gates
    they share with every other service. */
module GatedService {
  import opened Wrappers
  import opened ServiceModel
  import opened ServiceObject
  import Gates

  predicate Asking(pc: Pc) {
    pc.Gating? || pc.Unparking? || pc.Judging?
  }

  /** The end of a round, by where the run loop asked for it. */
  function Answering(pc: Pc, failing: seq<string>): Action {
    if pc.Gating? then Gate(GateAnswer(failing))
    else if pc.Unparking? then Gate(ParkAnswer(failing))
    else Judge(JudgeAnswer(failing))
  }

  predicate AllOk(answers: seq<Gates.Run>) {
    forall i | 0 <= i < |answers| :: answers[i].ok
  }

  /** One round, and what the service does with it. It spawns, goes back to the top, or is charged exactly if every gate
      it requires answered yes, each by its latest execution at some moment of the round: one young enough for the
      cache, or, after an exit, one made in the round. */
  method AskGates(s: Service, g: Gates.GateSet) returns (ghost answers: seq<Gates.Run>)
    requires g.Valid() && Asking(s.at) && forall n | n in s.cfg.gates :: n in g.gates
    modifies s, g
    ensures g.Valid()
    ensures Gates.Round(g.gates, old(g.runs), g.runs, old(g.clock), s.cfg.gates, old(s.at).Judging?, answers)
    ensures old(s.at).Gating? ==> (s.at.Rendering? <==> AllOk(answers)) && (s.at.Parked? <==> !AllOk(answers))
    ensures old(s.at).Unparking? ==> (s.at.Top? <==> AllOk(answers)) && (s.at.Parked? <==> !AllOk(answers))
    ensures old(s.at).Judging? ==>
              (s.restarts == old(s.restarts) + 1 <==> AllOk(answers)) && (s.at.Top? <==> !AllOk(answers))
    ensures var a := Answering(old(s.at), Gates.Failing(s.cfg.gates, answers));
            Enabled(s.cfg, old(s.State()), a) && s.State() == Step(s.cfg, old(s.State()), a)
  {
    var failing;
    failing, answers := g.Satisfied(s.cfg.gates, s.at.Judging?);
    Gates.NoneFailing(s.cfg.gates, answers);
    if s.at.Gating? {
      s.GateStep(GateAnswer(failing));
    } else if s.at.Unparking? {
      s.GateStep(ParkAnswer(failing));
    } else {
      s.JudgeStep(JudgeAnswer(failing));
    }
  }
}
