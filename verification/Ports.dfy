/** The port broker (orchestrator/ports.py) against a kernel that hands out ports as it likes and other processes
    that come and go at any time. */
module Ports {
  import opened Wrappers
  import opened Names

  datatype Endpoint = Endpoint(family: nat, port: nat)

  /** A bind that failed, and whether the endpoint was held by this process. */
  datatype Refusal = Refusal(at: Endpoint, ours: bool)

  /** A parsed port spec: a fixed port is a range of one. */
  datatype Spec = Auto | Range(low: nat, high: nat)

  datatype Wanted = Wanted(name: string, spec: Spec)

  datatype PortError =
    | NoLoopback
    | Duplicate(name: string, other: string)
    | NoAuto(name: string)
    | InUse(name: string, port: nat)
    | Exhausted(name: string)

  const AUTO_ATTEMPTS := 64

  /** `port` on each of the families. */
  function Everywhere(families: seq<nat>, port: nat): set<Endpoint> {
    set f | f in families :: Endpoint(f, port)
  }

  /** Since `start`, a bind of `port` failed on one of the families. */
  ghost predicate Refused(start: seq<Refusal>, log: seq<Refusal>, families: seq<nat>, port: nat) {
    exists k | |start| <= k < |log| :: log[k].at in Everywhere(families, port)
  }

  lemma RefusedStays(start: seq<Refusal>, mid: seq<Refusal>, log: seq<Refusal>, families: seq<nat>, port: nat)
    requires Refused(start, mid, families, port) && mid <= log
    ensures Refused(start, log, families, port)
  {
    var k :| |start| <= k < |mid| && mid[k].at in Everywhere(families, port);
    assert log[k] == mid[k];
  }

  lemma RefusedSooner(start: seq<Refusal>, mid: seq<Refusal>, log: seq<Refusal>, families: seq<nat>, port: nat)
    requires Refused(mid, log, families, port) && start <= mid
    ensures Refused(start, log, families, port)
  {
    var k :| |mid| <= k < |log| && log[k].at in Everywhere(families, port);
  }

  class Kernel {
    /** Endpoints other processes hold, which they change whenever they like. */
    var foreign: set<Endpoint>
    /** Endpoints this process holds. */
    var held: set<Endpoint>
    ghost var log: seq<Refusal>
    /** What this process held after each bind and close, and what the kernel picked, in order. */
    ghost var moments: seq<set<Endpoint>>
    ghost var picks: seq<Endpoint>

    ghost predicate Valid()
      reads this
    {
      foreign !! held && |moments| > 0 && moments[|moments| - 1] == held
    }

    constructor ()
      ensures Valid() && held == {}
    {
      foreign, held, log, moments, picks := {}, {}, [], [{}], [];
    }

    method Others()
      requires Valid()
      modifies this`foreign
      ensures Valid()
    {
      var theirs: set<Endpoint> := *;
      foreign := theirs - held;
    }

    /** `_bind_one` for a given port: it binds and listens exactly if nobody has the endpoint at that moment. */
    method BindOne(family: nat, port: nat) returns (ok: bool)
      requires Valid()
      modifies this
      ensures Valid() && old(moments) <= moments && picks == old(picks)
      ensures ok ==> Endpoint(family, port) !in old(held) && held == old(held) + {Endpoint(family, port)}
      ensures ok ==> log == old(log)
      ensures !ok ==> held == old(held) && Endpoint(family, port) in foreign + held
      ensures !ok ==> log == old(log) + [Refusal(Endpoint(family, port), Endpoint(family, port) in held)]
    {
      Others();
      var e := Endpoint(family, port);
      if e in foreign || e in held {
        log := log + [Refusal(e, e in held)];
        return false;
      }
      held := held + {e};
      moments := moments + [held];
      ok := true;
    }

    /** `_bind_one` for port 0: the kernel picks any endpoint nobody has, or none. */
    method BindAny(family: nat) returns (port: Option<nat>)
      requires Valid()
      modifies this
      ensures Valid() && old(moments) <= moments
      ensures picks == if port.Some? then old(picks) + [Endpoint(family, port.value)] else old(picks)
      ensures port.None? ==> held == old(held) && log == old(log) + [Refusal(Endpoint(family, 0), false)]
      ensures port.Some? ==> log == old(log)
      ensures port.Some? ==> port.value > 0 && Endpoint(family, port.value) !in old(held)
      ensures port.Some? ==> held == old(held) + {Endpoint(family, port.value)}
    {
      Others();
      var p: int := *;
      if p <= 0 || Endpoint(family, p) in foreign + held {
        log := log + [Refusal(Endpoint(family, 0), false)];
        return None;
      }
      var e := Endpoint(family, p);
      held := held + {e};
      moments, picks := moments + [held], picks + [e];
      port := Some(p);
    }

    method Close(e: Endpoint)
      requires Valid()
      modifies this`held, this`moments
      ensures Valid() && held == old(held) - {e} && old(moments) <= moments
    {
      held := held - {e};
      moments := moments + [held];
    }

    method CloseAll(sockets: seq<Endpoint>)
      requires Valid()
      modifies this`held, this`moments
      ensures Valid() && held == old(held) - Elements(sockets) && old(moments) <= moments
    {
      var i := 0;
      while i < |sockets|
        invariant 0 <= i <= |sockets| && Valid() && held == old(held) - Elements(sockets[..i]) && old(moments) <= moments
      {
        assert sockets[..i + 1] == sockets[..i] + [sockets[i]];
        ElementsAppend(sockets[..i], [sockets[i]]);
        Close(sockets[i]);
        i := i + 1;
      }
      assert sockets[..i] == sockets;
    }

    /** `_try_bind`: the port is held on every family, or on none of them. */
    method TryBind(port: nat, families: seq<nat>) returns (sockets: Option<seq<Endpoint>>)
      requires Valid()
      modifies this
      ensures Valid() && old(log) <= log && old(moments) <= moments && picks == old(picks)
      ensures sockets.Some? ==> Elements(sockets.value) == Everywhere(families, port)
      ensures sockets.Some? ==> held == old(held) + Everywhere(families, port)
      ensures sockets.Some? ==> old(held) !! Everywhere(families, port)
      ensures sockets.None? ==> held == old(held) && Refused(old(log), log, families, port)
    {
      var got: seq<Endpoint> := [];
      var i := 0;
      while i < |families|
        invariant 0 <= i <= |families| && Valid() && log == old(log)
        invariant old(moments) <= moments && picks == old(picks)
        invariant held == old(held) + Elements(got) && old(held) !! Elements(got)
        invariant Elements(got) == Everywhere(families[..i], port)
      {
        assert families[..i + 1] == families[..i] + [families[i]];
        var ok := BindOne(families[i], port);
        if !ok {
          CloseAll(got);
          assert log[|old(log)|].at in Everywhere(families, port);
          return None;
        }
        ElementsAppend(got, [Endpoint(families[i], port)]);
        got := got + [Endpoint(families[i], port)];
        i := i + 1;
      }
      assert families[..i] == families;
      sockets := Some(got);
    }
  }

  // ---- One batch -----------------------------------------------------------------------------------

  /** Everything opened since `base` is in the batch's list. */
  ghost predicate Opened(base: set<Endpoint>, held: set<Endpoint>, holds: seq<Endpoint>) {
    held == base + Elements(holds) && base !! Elements(holds)
  }

  /** The kernel's picks from position `from` on are all different, and all still held. */
  ghost predicate PicksApart(picks: seq<Endpoint>, from: nat, holds: seq<Endpoint>) {
    && from <= |picks|
    && (forall i | from <= i < |picks| :: picks[i] in holds)
    && forall i, j | from <= i < j < |picks| :: picks[i] != picks[j]
  }

  lemma PicksHeld(picks: seq<Endpoint>, from: nat, holds: seq<Endpoint>, more: seq<Endpoint>)
    requires PicksApart(picks, from, holds)
    ensures PicksApart(picks, from, holds + more)
  {
  }

  lemma PickedNew(picks: seq<Endpoint>, from: nat, holds: seq<Endpoint>, e: Endpoint)
    requires PicksApart(picks, from, holds) && e !in holds
    ensures PicksApart(picks + [e], from, holds + [e])
  {
  }

  /** What came before is still there. */
  ghost predicate Grown(holds: seq<Endpoint>, holds': seq<Endpoint>, log: seq<Refusal>, log': seq<Refusal>) {
    Elements(holds) <= Elements(holds') && log <= log'
  }

  /** Candidates an automatic pick rejected: all different, and each refused on another family. */
  ghost predicate Rejected(rest: seq<nat>, leads: seq<nat>, start: seq<Refusal>, log: seq<Refusal>) {
    && (forall i, j | 0 <= i < j < |leads| :: leads[i] != leads[j])
    && forall i | 0 <= i < |leads| :: Refused(start, log, rest, leads[i])
  }

  /** The rejected candidates are still held on the first family, so that the kernel cannot hand them out again. */
  predicate KeptOut(first: nat, leads: seq<nat>, holds: seq<Endpoint>) {
    forall i | 0 <= i < |leads| :: Endpoint(first, leads[i]) in holds
  }

  /** An automatic pick has nothing left to try. */
  ghost predicate NothingLeft(families: seq<nat>, start: seq<Refusal>, log: seq<Refusal>)
    requires |families| > 0
  {
    Refused(start, log, families[..1], 0) ||
    exists leads :: |leads| == AUTO_ATTEMPTS && Rejected(families[1..], leads, start, log)
  }

  lemma NothingLeftSooner(families: seq<nat>, start: seq<Refusal>, mid: seq<Refusal>, log: seq<Refusal>)
    requires |families| > 0 && NothingLeft(families, mid, log) && start <= mid
    ensures NothingLeft(families, start, log)
  {
    if Refused(mid, log, families[..1], 0) {
      RefusedSooner(start, mid, log, families[..1], 0);
    } else {
      var leads :| |leads| == AUTO_ATTEMPTS && Rejected(families[1..], leads, mid, log);
      forall i | 0 <= i < |leads| ensures Refused(start, log, families[1..], leads[i]) {
        RefusedSooner(start, mid, log, families[1..], leads[i]);
      }
      assert Rejected(families[1..], leads, start, log);
    }
  }

  lemma RejectedMore(first: nat, rest: seq<nat>, leads: seq<nat>, lead: nat, holds: seq<Endpoint>,
                     start: seq<Refusal>, mid: seq<Refusal>, log: seq<Refusal>)
    requires Rejected(rest, leads, start, mid) && KeptOut(first, leads, holds) && start <= mid <= log
    requires Endpoint(first, lead) !in holds && Refused(mid, log, rest, lead)
    ensures Rejected(rest, leads + [lead], start, log)
    ensures KeptOut(first, leads + [lead], holds + [Endpoint(first, lead)])
  {
    RefusedSooner(start, mid, log, rest, lead);
    RejectedLater(rest, leads, start, mid, log);
  }

  lemma RejectedLater(rest: seq<nat>, leads: seq<nat>, start: seq<Refusal>, mid: seq<Refusal>, log: seq<Refusal>)
    requires Rejected(rest, leads, start, mid) && mid <= log
    ensures Rejected(rest, leads, start, log)
  {
    forall i | 0 <= i < |leads| ensures Refused(start, log, rest, leads[i]) {
      RefusedStays(start, mid, log, rest, leads[i]);
    }
  }

  /** One attempt: the kernel picks a candidate, if it has one, and the other families are tried. The candidate is
      held on the first family either way. */
  method Attempt(k: Kernel, families: seq<nat>, holds: seq<Endpoint>, ghost base: set<Endpoint>, ghost from: nat)
      returns (lead: Option<nat>, taken: bool, holds': seq<Endpoint>)
    requires k.Valid() && |families| > 0 && Opened(base, k.held, holds) && PicksApart(k.picks, from, holds)
    modifies k
    ensures k.Valid() && Opened(base, k.held, holds') && Grown(holds, holds', old(k.log), k.log)
    ensures PicksApart(k.picks, from, holds') && old(k.moments) <= k.moments && old(k.picks) <= k.picks
    ensures lead.None? ==> !taken && Refused(old(k.log), k.log, families[..1], 0) && holds' == holds
    ensures lead.Some? ==> Endpoint(families[0], lead.value) !in Elements(holds)
    ensures lead.Some? && !taken ==> Refused(old(k.log), k.log, families[1..], lead.value)
    ensures lead.Some? && !taken ==> holds' == holds + [Endpoint(families[0], lead.value)]
    ensures taken ==> Everywhere(families, lead.value) <= Elements(holds')
    ensures taken ==> Everywhere(families, lead.value) !! Elements(holds)
  {
    ghost var picks := k.picks;
    taken, holds' := false, holds;
    lead := k.BindAny(families[0]);
    if lead.None? {
      assert k.log[|old(k.log)|].at in Everywhere(families[..1], 0);
      return;
    }
    ElementsAppend(holds, [Endpoint(families[0], lead.value)]);
    assert Endpoint(families[0], lead.value) !in Elements(holds);
    PickedNew(picks, from, holds, Endpoint(families[0], lead.value));
    holds' := holds + [Endpoint(families[0], lead.value)];
    var rest := k.TryBind(lead.value, families[1..]);
    if rest.Some? {
      ElementsAppend(holds', rest.value);
      PicksHeld(k.picks, from, holds', rest.value);
      assert families == [families[0]] + families[1..];
      assert Everywhere(families, lead.value) == {Endpoint(families[0], lead.value)} + Elements(rest.value);
      taken, holds' := true, holds' + rest.value;
    }
  }

  /** `_bind_auto`: a port nobody has on any family, different from every candidate rejected on the way. */
  method BindAuto(k: Kernel, families: seq<nat>, holds: seq<Endpoint>, ghost base: set<Endpoint>, ghost from: nat)
      returns (port: Option<nat>, holds': seq<Endpoint>, ghost leads: seq<nat>)
    requires k.Valid() && |families| > 0 && Opened(base, k.held, holds) && PicksApart(k.picks, from, holds)
    modifies k
    ensures PicksApart(k.picks, from, holds') && old(k.moments) <= k.moments && old(k.picks) <= k.picks
    ensures k.Valid() && Opened(base, k.held, holds') && Grown(holds, holds', old(k.log), k.log)
    ensures Rejected(families[1..], leads, old(k.log), k.log) && KeptOut(families[0], leads, holds')
    ensures |leads| <= AUTO_ATTEMPTS
    ensures port.Some? ==> Everywhere(families, port.value) <= Elements(holds')
    ensures port.Some? ==> Everywhere(families, port.value) !! Elements(holds)
    ensures port.Some? ==> port.value !in leads
    ensures port.None? ==> NothingLeft(families, old(k.log), k.log)
  {
    holds', leads := holds, [];
    var n := 0;
    while n < AUTO_ATTEMPTS
      invariant n == |leads| <= AUTO_ATTEMPTS
      invariant PicksApart(k.picks, from, holds') && old(k.moments) <= k.moments && old(k.picks) <= k.picks
      invariant k.Valid() && Opened(base, k.held, holds') && Grown(holds, holds', old(k.log), k.log)
      invariant Rejected(families[1..], leads, old(k.log), k.log) && KeptOut(families[0], leads, holds')
    {
      ghost var log, before := k.log, holds';
      var lead, taken, more := Attempt(k, families, holds', base, from);
      holds' := more;
      RejectedLater(families[1..], leads, old(k.log), log, k.log);
      if lead.None? {
        RefusedSooner(old(k.log), log, k.log, families[..1], 0);
        return None, holds', leads;
      }
      LeadIsNew(families[0], leads, before, lead.value);
      StillKeptOut(families[0], leads, before, holds');
      if taken { return lead, holds', leads; }
      RejectedMore(families[0], families[1..], leads, lead.value, before, old(k.log), log, k.log);
      leads := leads + [lead.value];
      n := n + 1;
    }
    port := None;
  }

  lemma StillKeptOut(first: nat, leads: seq<nat>, holds: seq<Endpoint>, holds': seq<Endpoint>)
    requires KeptOut(first, leads, holds) && Elements(holds) <= Elements(holds')
    ensures KeptOut(first, leads, holds')
  {
    forall i | 0 <= i < |leads| ensures Endpoint(first, leads[i]) in holds' {
      assert Endpoint(first, leads[i]) in Elements(holds);
    }
  }

  lemma LeadIsNew(first: nat, leads: seq<nat>, holds: seq<Endpoint>, lead: nat)
    requires KeptOut(first, leads, holds) && Endpoint(first, lead) !in Elements(holds)
    ensures lead !in leads
  {
  }

  /** `port` is the first of the range that could be had. */
  ghost predicate Fits(spec: Spec, port: nat, families: seq<nat>, start: seq<Refusal>, log: seq<Refusal>) {
    spec.Range? ==> spec.low <= port <= spec.high && AllRefused(spec.low, port, families, start, log)
  }

  /** Every port from `low` up to but not including `end` was refused. */
  ghost predicate AllRefused(low: nat, end: nat, families: seq<nat>, start: seq<Refusal>, log: seq<Refusal>) {
    forall c {:trigger Refused(start, log, families, c)} | low <= c < end :: Refused(start, log, families, c)
  }

  lemma AllRefusedLater(low: nat, end: nat, families: seq<nat>, start: seq<Refusal>, mid: seq<Refusal>,
                        log: seq<Refusal>)
    requires AllRefused(low, end, families, start, mid) && mid <= log
    ensures AllRefused(low, end, families, start, log)
  {
    forall c | low <= c < end ensures Refused(start, log, families, c) { RefusedStays(start, mid, log, families, c); }
  }

  /** The scan of a range: the least port of it that is free on every family when it is tried, or none. */
  method Scan(k: Kernel, low: nat, high: nat, families: seq<nat>, holds: seq<Endpoint>, ghost base: set<Endpoint>,
              ghost from: nat)
      returns (port: Option<nat>, holds': seq<Endpoint>)
    requires k.Valid() && Opened(base, k.held, holds) && PicksApart(k.picks, from, holds)
    modifies k
    ensures PicksApart(k.picks, from, holds') && old(k.moments) <= k.moments && old(k.picks) <= k.picks
    ensures k.Valid() && Opened(base, k.held, holds') && Grown(holds, holds', old(k.log), k.log)
    ensures port.Some? ==> Fits(Range(low, high), port.value, families, old(k.log), k.log)
    ensures port.Some? ==> Everywhere(families, port.value) <= Elements(holds')
    ensures port.Some? ==> Everywhere(families, port.value) !! Elements(holds)
    ensures port.None? ==> AllRefused(low, high + 1, families, old(k.log), k.log)
  {
    holds' := holds;
    var c := low;
    while c <= high
      invariant low <= c && k.Valid() && Opened(base, k.held, holds) && old(k.log) <= k.log
      invariant AllRefused(low, c, families, old(k.log), k.log)
      invariant k.picks == old(k.picks) && old(k.moments) <= k.moments && old(k.picks) <= k.picks
    {
      ghost var log := k.log;
      var sockets := k.TryBind(c, families);
      AllRefusedLater(low, c, families, old(k.log), log, k.log);
      if sockets.Some? {
        ElementsAppend(holds, sockets.value);
        PicksHeld(k.picks, from, holds, sockets.value);
        return Some(c), holds + sockets.value;
      }
      RefusedSooner(old(k.log), log, k.log, families, c);
      c := c + 1;
    }
    port := None;
  }

  /** What a failed batch says. */
  ghost predicate Blamed(wanted: seq<Wanted>, families: seq<nat>, start: seq<Refusal>, log: seq<Refusal>, e: PortError) {
    match e
    case NoLoopback => families == []
    case Duplicate(name, other) =>
      exists p, i, j | 0 <= i < j < |wanted| ::
        wanted[i] == Wanted(other, Range(p, p)) && wanted[j] == Wanted(name, Range(p, p))
    case NoAuto(name) => Wanted(name, Auto) in wanted && families != [] && NothingLeft(families, start, log)
    case InUse(name, p) => Wanted(name, Range(p, p)) in wanted && Refused(start, log, families, p)
    case Exhausted(name) =>
      exists low: nat, high: nat | low != high ::
        Wanted(name, Range(low, high)) in wanted && AllRefused(low, high + 1, families, start, log)
  }

  /** The first i names have their ports: in their specs, held on every family, and all different. */
  ghost predicate Placed(wanted: seq<Wanted>, i: int, families: seq<nat>, ports: map<string, nat>,
                         holds: set<Endpoint>, start: seq<Refusal>, log: seq<Refusal>) {
    && 0 <= i <= |wanted|
    && (forall j {:trigger PlacedAt(wanted, j, families, ports, holds, start, log)} | 0 <= j < i ::
          PlacedAt(wanted, j, families, ports, holds, start, log))
    && forall j, l {:trigger Apart(wanted, ports, j, l)} | 0 <= j < l < i :: Apart(wanted, ports, j, l)
  }

  ghost predicate PlacedAt(wanted: seq<Wanted>, j: int, families: seq<nat>, ports: map<string, nat>,
                           holds: set<Endpoint>, start: seq<Refusal>, log: seq<Refusal>) {
    0 <= j < |wanted| && wanted[j].name in ports && 
    Fits(wanted[j].spec, ports[wanted[j].name], families, start, log) &&
    Everywhere(families, ports[wanted[j].name]) <= holds
  }

  predicate Apart(wanted: seq<Wanted>, ports: map<string, nat>, j: int, l: int) {
    0 <= j < |wanted| && 0 <= l < |wanted| && wanted[j].name in ports && wanted[l].name in ports &&
    ports[wanted[j].name] != ports[wanted[l].name]
  }

  predicate DistinctNames(wanted: seq<Wanted>) {
    forall i, j | 0 <= i < j < |wanted| :: wanted[i].name != wanted[j].name
  }

  lemma PlacedOne(wanted: seq<Wanted>, i: int, families: seq<nat>, ports: map<string, nat>, holds: set<Endpoint>,
                  holds': set<Endpoint>, start: seq<Refusal>, mid: seq<Refusal>, log: seq<Refusal>, port: nat)
    requires DistinctNames(wanted) && |families| > 0 && i < |wanted| && start <= mid <= log && holds <= holds'
    requires Placed(wanted, i, families, ports, holds, start, mid)
    requires Fits(wanted[i].spec, port, families, mid, log)
    requires Everywhere(families, port) <= holds' && Everywhere(families, port) !! holds
    ensures Placed(wanted, i + 1, families, ports[wanted[i].name := port], holds', start, log)
  {
    var ports' := ports[wanted[i].name := port];
    forall j | 0 <= j < i + 1 ensures PlacedAt(wanted, j, families, ports', holds', start, log) {
      if j < i {
        assert PlacedAt(wanted, j, families, ports, holds, start, mid);
        FitsLater(wanted[j].spec, ports[wanted[j].name], families, start, mid, log);
      } else {
        FitsSooner(wanted[i].spec, port, families, start, mid, log);
      }
    }
    forall j, l | 0 <= j < l < i + 1 ensures Apart(wanted, ports', j, l) {
      assert PlacedAt(wanted, j, families, ports, holds, start, mid);
      if l == i {
        assert Endpoint(families[0], port) in Everywhere(families, port);
        assert Endpoint(families[0], ports[wanted[j].name]) in Everywhere(families, ports[wanted[j].name]);
      } else {
        assert Apart(wanted, ports, j, l);
      }
    }
  }

  lemma FitsLater(spec: Spec, port: nat, families: seq<nat>, start: seq<Refusal>, mid: seq<Refusal>, log: seq<Refusal>)
    requires Fits(spec, port, families, start, mid) && mid <= log
    ensures Fits(spec, port, families, start, log)
  {
    if spec.Range? { AllRefusedLater(spec.low, port, families, start, mid, log); }
  }

  lemma AllRefusedSooner(low: nat, end: nat, families: seq<nat>, start: seq<Refusal>, mid: seq<Refusal>,
                         log: seq<Refusal>)
    requires AllRefused(low, end, families, mid, log) && start <= mid
    ensures AllRefused(low, end, families, start, log)
  {
    forall c | low <= c < end ensures Refused(start, log, families, c) { RefusedSooner(start, mid, log, families, c); }
  }

  lemma FitsSooner(spec: Spec, port: nat, families: seq<nat>, start: seq<Refusal>, mid: seq<Refusal>, log: seq<Refusal>)
    requires Fits(spec, port, families, mid, log) && start <= mid
    ensures Fits(spec, port, families, start, log)
  {
    if spec.Range? { AllRefusedSooner(spec.low, port, families, start, mid, log); }
  }

  /** One name of the batch. */
  method Place(k: Kernel, w: Wanted, families: seq<nat>, holds: seq<Endpoint>, ghost base: set<Endpoint>, ghost from: nat)
      returns (r: Result<nat, PortError>, holds': seq<Endpoint>)
    requires k.Valid() && |families| > 0 && Opened(base, k.held, holds) && PicksApart(k.picks, from, holds)
    modifies k
    ensures PicksApart(k.picks, from, holds') && old(k.moments) <= k.moments && old(k.picks) <= k.picks
    ensures k.Valid() && Opened(base, k.held, holds') && Grown(holds, holds', old(k.log), k.log)
    ensures r.Ok? ==> Fits(w.spec, r.value, families, old(k.log), k.log)
    ensures r.Ok? ==> Everywhere(families, r.value) <= Elements(holds')
    ensures r.Ok? ==> Everywhere(families, r.value) !! Elements(holds)
    ensures r.Err? ==> Blamed([w], families, old(k.log), k.log, r.error)
  {
    if w.spec.Auto? {
      var port, sockets, _ := BindAuto(k, families, holds, base, from);
      assert w == [w][0] == Wanted(w.name, Auto);
      r, holds' := if port.Some? then Ok(port.value) else Err(NoAuto(w.name)), sockets;
    } else {
      var low, high := w.spec.low, w.spec.high;
      var port, sockets := Scan(k, low, high, families, holds, base, from);
      holds' := sockets;
      assert w == [w][0] == Wanted(w.name, Range(low, high));
      if port.Some? { return Ok(port.value), holds'; }
      if low == high {
        assert Refused(old(k.log), k.log, families, low);
        return Err(InUse(w.name, low)), holds';
      }
      r := Err(Exhausted(w.name));
    }
  }

  lemma BlamedOne(wanted: seq<Wanted>, i: nat, families: seq<nat>, start: seq<Refusal>, mid: seq<Refusal>,
                  log: seq<Refusal>, e: PortError)
    requires i < |wanted| && Blamed([wanted[i]], families, mid, log, e) && start <= mid && families != []
    ensures Blamed(wanted, families, start, log, e)
  {
    match e
    case NoLoopback =>
    case Duplicate(_, _) =>
    case NoAuto(name) =>
      assert wanted[i] == Wanted(name, Auto);
      NothingLeftSooner(families, start, mid, log);
    case InUse(name, p) =>
      assert wanted[i] == Wanted(name, Range(p, p));
      RefusedSooner(start, mid, log, families, p);
    case Exhausted(name) =>
      var low: nat, high: nat :| low != high && Wanted(name, Range(low, high)) in [wanted[i]] &&
        AllRefused(low, high + 1, families, mid, log);
      assert wanted[i] == Wanted(name, Range(low, high));
      AllRefusedSooner(low, high + 1, families, start, mid, log);
  }

  /** The fixed ports met so far, each with the name that asked for it. */
  ghost predicate FixedSoFar(wanted: seq<Wanted>, i: int, fixed: map<nat, string>) {
    forall p | p in fixed :: exists j | 0 <= j < i && j < |wanted| :: wanted[j] == Wanted(fixed[p], Range(p, p))
  }

  /** At some moment since `before` ended, exactly these endpoints were held. */
  ghost predicate HeldAtOnce(before: seq<set<Endpoint>>, moments: seq<set<Endpoint>>, held: set<Endpoint>) {
    exists i | |before| - 1 <= i < |moments| && 0 <= i :: moments[i] == held
  }

  ghost predicate NeverPickedTwice(before: seq<Endpoint>, picks: seq<Endpoint>) {
    before <= picks && forall i, j | |before| <= i < j < |picks| :: picks[i] != picks[j]
  }

  /** `allocate_ports`. Whatever happens, every socket opened is closed again; the ports given were all held on
      every family at one moment; and the kernel never picks a port twice, whether it was rejected or not. */
  method AllocatePorts(k: Kernel, wanted: seq<Wanted>, families: seq<nat>)
      returns (r: Result<map<string, nat>, PortError>, ghost together: set<Endpoint>)
    requires k.Valid() && DistinctNames(wanted)
    modifies k
    ensures k.Valid() && k.held == old(k.held) && together !! old(k.held)
    ensures HeldAtOnce(old(k.moments), k.moments, old(k.held) + together)
    ensures NeverPickedTwice(old(k.picks), k.picks)
    ensures r.Ok? ==> Placed(wanted, |wanted|, families, r.value, together, old(k.log), k.log)
    ensures r.Err? ==> Blamed(wanted, families, old(k.log), k.log, r.error)
  {
    together := {};
    assert k.held + {} == k.held;
    if |families| == 0 { return Err(NoLoopback), {}; }
    var holds: seq<Endpoint>;
    r, holds := PlaceAll(k, wanted, families, old(k.held));
    together := Elements(holds);
    ghost var moments := k.moments;
    assert moments[|moments| - 1] == old(k.held) + together;
    k.CloseAll(holds);
    assert k.moments[|moments| - 1] == old(k.held) + together;
  }

  /** The batch itself, up to the point where its sockets are closed. */
  method PlaceAll(k: Kernel, wanted: seq<Wanted>, families: seq<nat>, ghost base: set<Endpoint>)
      returns (r: Result<map<string, nat>, PortError>, holds: seq<Endpoint>)
    requires k.Valid() && DistinctNames(wanted) && |families| > 0 && base == k.held
    modifies k
    ensures k.Valid() && Opened(base, k.held, holds)
    ensures PicksApart(k.picks, |old(k.picks)|, holds) && old(k.moments) <= k.moments && old(k.picks) <= k.picks
    ensures r.Ok? ==> Placed(wanted, |wanted|, families, r.value, Elements(holds), old(k.log), k.log)
    ensures r.Err? ==> Blamed(wanted, families, old(k.log), k.log, r.error)
  {
    var ports: map<string, nat> := map[];
    var fixed: map<nat, string> := map[];
    holds := [];
    var i := 0;
    while i < |wanted|
      invariant k.Valid() && Opened(base, k.held, holds) && old(k.log) <= k.log
      invariant Placed(wanted, i, families, ports, Elements(holds), old(k.log), k.log)
      invariant FixedSoFar(wanted, i, fixed)
      invariant PicksApart(k.picks, |old(k.picks)|, holds) && old(k.moments) <= k.moments && old(k.picks) <= k.picks
    {
      var w := wanted[i];
      if w.spec.Range? && w.spec.low == w.spec.high {
        if w.spec.low in fixed {
          assert w == Wanted(w.name, Range(w.spec.low, w.spec.low));
          return Err(Duplicate(w.name, fixed[w.spec.low])), holds;
        }
        fixed := fixed[w.spec.low := w.name];
        assert wanted[i] == Wanted(w.name, Range(w.spec.low, w.spec.low));
      }
      ghost var log, before := k.log, Elements(holds);
      var port, more := Place(k, w, families, holds, base, |old(k.picks)|);
      holds := more;
      if port.Err? {
        BlamedOne(wanted, i, families, old(k.log), log, k.log, port.error);
        return Err(port.error), holds;
      }
      PlacedOne(wanted, i, families, ports, before, Elements(holds), old(k.log), log, k.log, port.value);
      ports := ports[w.name := port.value];
      i := i + 1;
    }
    r := Ok(ports);
  }
}
