/** The append-only migration ledger of the SQLite driver (modules/sql/sqlite.py), shared by any number of processes
    that may fail or die at any point. */
module Migrations {
  import opened Wrappers

  type Statement = int

  /** Everything in the database but the ledger, as far as statements see it. */
  type Content = int

  datatype Migration = Migration(name: string, statements: seq<Statement>)

  /** A committed transaction: a migration that a process ran, or the statements of one `execute`. */
  datatype Txn = Migrated(author: nat, migration: Migration) | Executed(statements: seq<Statement>)

  type Ledger = map<nat, string>

  /** A `migrate` call that has read the ledger and checked its list; `pos` is the position it applies next. */
  datatype Process = Process(list: seq<Migration>, pos: nat)

  /** A call of process `p` that has succeeded with a list of these names. */
  datatype Win = Win(p: nat, names: seq<string>)

  /** `log` records the committed transactions and `won` the calls that have succeeded, each at its last look at the
      ledger; no call reads them. */
  datatype Store = Store(ledger: Ledger, content: Content, procs: map<nat, Process>, log: seq<Txn>, won: seq<Win>)

  /** What one statement does, if the store does not refuse it. */
  type Engine = (Content, Statement) -> Option<Content>

  function RunAll(exec: Engine, c: Content, statements: seq<Statement>): Option<Content> {
    if |statements| == 0 then Some(c)
    else match RunAll(exec, c, statements[..|statements| - 1])
      case None => None
      case Some(d) => exec(d, statements[|statements| - 1])
  }

  function Statements(t: Txn): seq<Statement> {
    match t
    case Migrated(_, m) => m.statements
    case Executed(statements) => statements
  }

  /** The transactions run in order on an initial content, each one whole. */
  function Replay(exec: Engine, c: Content, log: seq<Txn>): Option<Content> {
    if |log| == 0 then Some(c)
    else match Replay(exec, c, log[..|log| - 1])
      case None => None
      case Some(d) => RunAll(exec, d, Statements(log[|log| - 1]))
  }

  /** `cs` are the contents before, between and after the statements, none of which is refused. */
  predicate Trace(exec: Engine, cs: seq<Content>, statements: seq<Statement>) {
    |cs| == |statements| + 1 && forall i | 0 <= i < |statements| :: exec(cs[i], statements[i]) == Some(cs[i + 1])
  }

  /** Every statement is executed, in order, and none is refused. */
  ghost predicate Runs(exec: Engine, c: Content, statements: seq<Statement>, d: Content) {
    exists cs :: Trace(exec, cs, statements) && cs[0] == c && cs[|statements|] == d
  }

  lemma {:induction false} RunAllExactly(exec: Engine, c: Content, statements: seq<Statement>, d: Content)
    ensures RunAll(exec, c, statements) == Some(d) <==> Runs(exec, c, statements, d)
  {
    if |statements| == 0 {
      assert Trace(exec, [c], statements);
    } else {
      var n := |statements| - 1;
      if RunAll(exec, c, statements) == Some(d) {
        var e := RunAll(exec, c, statements[..n]).value;
        RunAllExactly(exec, c, statements[..n], e);
        var cs :| Trace(exec, cs, statements[..n]) && cs[0] == c && cs[n] == e;
        TraceMore(exec, cs, statements, d);
      }
      if Runs(exec, c, statements, d) {
        var cs :| Trace(exec, cs, statements) && cs[0] == c && cs[|statements|] == d;
        assert Trace(exec, cs[..n + 1], statements[..n]);
        RunAllExactly(exec, c, statements[..n], cs[n]);
        assert exec(cs[n], statements[n]) == Some(cs[n + 1]);
      }
    }
  }

  lemma TraceMore(exec: Engine, cs: seq<Content>, statements: seq<Statement>, d: Content)
    requires |statements| > 0 && Trace(exec, cs, statements[..|statements| - 1])
    requires exec(cs[|statements| - 1], statements[|statements| - 1]) == Some(d)
    ensures Trace(exec, cs + [d], statements)
  {
    forall i | 0 <= i < |statements| ensures exec((cs + [d])[i], statements[i]) == Some((cs + [d])[i + 1]) {
      if i < |statements| - 1 { assert statements[..|statements| - 1][i] == statements[i]; }
    }
  }

  /** The statements of one transaction take one content to the other. */
  ghost predicate Ran(exec: Engine, c: Content, t: Txn, d: Content) {
    match t
    case Migrated(_, m) => Runs(exec, c, m.statements, d)
    case Executed(statements) => Runs(exec, c, statements, d)
  }

  /** The contents before, between and after the transactions. */
  ghost predicate Course(exec: Engine, ds: seq<Content>, log: seq<Txn>) {
    |ds| == |log| + 1 && forall i | 0 <= i < |log| :: Ran(exec, ds[i], log[i], ds[i + 1])
  }

  /** The content is what all statements of the transactions, each executed, make of the initial one. */
  ghost predicate Explained(exec: Engine, c: Content, log: seq<Txn>, d: Content) {
    exists ds :: Course(exec, ds, log) && ds[0] == c && ds[|log|] == d
  }

  lemma {:induction false} ReplayExplains(exec: Engine, c: Content, log: seq<Txn>, d: Content)
    requires Replay(exec, c, log) == Some(d)
    ensures Explained(exec, c, log, d)
  {
    if |log| == 0 {
      assert Course(exec, [c], log);
    } else {
      var n := |log| - 1;
      var e := Replay(exec, c, log[..n]).value;
      ReplayExplains(exec, c, log[..n], e);
      var ds :| Course(exec, ds, log[..n]) && ds[0] == c && ds[n] == e;
      RunAllExactly(exec, e, Statements(log[n]), d);
      forall i | 0 <= i < |log| ensures Ran(exec, (ds + [d])[i], log[i], (ds + [d])[i + 1]) {
        if i < n { assert log[..n][i] == log[i]; }
      }
      assert Course(exec, ds + [d], log);
    }
  }

  /** There is only one such content. */
  lemma {:induction false} ExplainedOnce(exec: Engine, c: Content, log: seq<Txn>, d: Content)
    requires Explained(exec, c, log, d)
    ensures Replay(exec, c, log) == Some(d)
  {
    var n := |log|;
    var ds :| Course(exec, ds, log) && ds[0] == c && ds[n] == d;
    if n == 0 {
    } else {
      forall i | 0 <= i < n - 1 ensures Ran(exec, ds[..n][i], log[..n - 1][i], ds[..n][i + 1]) {
        assert Ran(exec, ds[i], log[i], ds[i + 1]);
      }
      assert Course(exec, ds[..n], log[..n - 1]);
      ExplainedOnce(exec, c, log[..n - 1], ds[n - 1]);
      assert Ran(exec, ds[n - 1], log[n - 1], ds[n - 1 + 1]);
      RunAllExactly(exec, ds[n - 1], Statements(log[n - 1]), d);
    }
  }

  function NamesOf(list: seq<Migration>): (names: seq<string>)
    ensures |names| == |list| && forall i | 0 <= i < |list| :: names[i] == list[i].name
  {
    seq(|list|, i requires 0 <= i < |list| => list[i].name)
  }

  /** The names of the migrations among the transactions, in order. */
  function Applied(log: seq<Txn>): seq<string> {
    if |log| == 0 then []
    else
      var rest := Applied(log[..|log| - 1]);
      if log[|log| - 1].Migrated? then rest + [log[|log| - 1].migration.name] else rest
  }

  predicate Distinct<T(==)>(s: seq<T>) {
    forall i, j | 0 <= i < j < |s| :: s[i] != s[j]
  }

  /** `positions` are those of the ledger, in order. */
  predicate InOrder(ledger: Ledger, positions: seq<nat>) {
    && (forall i, j | 0 <= i < j < |positions| :: positions[i] < positions[j])
    && (forall i | 0 <= i < |positions| :: positions[i] in ledger) && forall p | p in ledger :: p in positions
  }

  function NamesAt(ledger: Ledger, positions: seq<nat>): (names: seq<string>)
    requires forall i | 0 <= i < |positions| :: positions[i] in ledger
    ensures |names| == |positions|
  {
    seq(|positions|, i requires 0 <= i < |positions| => ledger[positions[i]])
  }

  /** `_check_history`: the submitted names are distinct and begin with the applied ones. */
  predicate HistoryOk(applied: seq<string>, names: seq<string>) {
    Distinct(names) && applied <= names
  }

  datatype Act =
    | Look(p: nat, list: seq<Migration>, positions: seq<nat>)
    | Apply(p: nat, fails: bool)
    | Die(p: nat)
    | Execute(statements: seq<Statement>, fails: bool)

  predicate Can(s: Store, a: Act) {
    match a
    case Look(p, _, positions) => p !in s.procs && InOrder(s.ledger, positions)
    case Apply(p, _) => p in s.procs && s.procs[p].pos < |s.procs[p].list|
    case Die(p) => p in s.procs
    case Execute(_, _) => true
  }

  function Looked(s: Store, p: nat, list: seq<Migration>, positions: seq<nat>): Store
    requires Can(s, Look(p, list, positions))
  {
    var applied, names := NamesAt(s.ledger, positions), NamesOf(list);
    if !HistoryOk(applied, names) then s
    else if |applied| == |names| then s.(won := s.won + [Win(p, names)])
    else s.(procs := s.procs[p := Process(list, |applied|)])
  }

  /** One migration's transaction: its statements and its ledger row, or nothing. The row's position and name must
      both be new to the ledger. */
  function ApplyOne(exec: Engine, s: Store, p: nat, fails: bool): Store
    requires Can(s, Apply(p, fails))
  {
    var proc := s.procs[p];
    var m := proc.list[proc.pos];
    var c := RunAll(exec, s.content, m.statements);
    if fails || c.None? || proc.pos in s.ledger || m.name in s.ledger.Values then s.(procs := s.procs - {p})
    else
      var done := proc.pos + 1 == |proc.list|;
      s.(ledger := s.ledger[proc.pos := m.name], content := c.value, log := s.log + [Migrated(p, m)],
         procs := if done then s.procs - {p} else s.procs[p := Process(proc.list, proc.pos + 1)],
         won := if done then s.won + [Win(p, NamesOf(proc.list))] else s.won)
  }

  function Step(exec: Engine, s: Store, a: Act): Store
    requires Can(s, a)
  {
    match a
    case Look(p, list, positions) => Looked(s, p, list, positions)
    case Apply(p, fails) => ApplyOne(exec, s, p, fails)
    case Die(p) => s.(procs := s.procs - {p})
    case Execute(statements, fails) =>
      var c := RunAll(exec, s.content, statements);
      if fails || c.None? then s else s.(content := c.value, log := s.log + [Executed(statements)])
  }

  predicate Enabled(exec: Engine, s: Store, acts: seq<Act>)
    decreases |acts|
  {
    |acts| > 0 ==> Can(s, acts[0]) && Enabled(exec, Step(exec, s, acts[0]), acts[1..])
  }

  function After(exec: Engine, s: Store, acts: seq<Act>): Store
    requires Enabled(exec, s, acts)
    decreases |acts|
  {
    if |acts| == 0 then s else After(exec, Step(exec, s, acts[0]), acts[1..])
  }

  // ---- What every run keeps --------------------------------------------------------------------------

  /** The ledger is these names at positions 0, 1, 2 and so on. */
  predicate Rows(ledger: Ledger, names: seq<string>) {
    && (forall i | i in ledger :: i < |names|) && forall i | 0 <= i < |names| :: i in ledger && ledger[i] == names[i]
  }

  /** A running call's list begins with what was in the ledger when it looked and what it has added since. */
  predicate ProcOk(applied: seq<string>, proc: Process) {
    Distinct(NamesOf(proc.list)) && proc.pos < |proc.list| && NamesOf(proc.list)[..proc.pos] <= applied
  }

  predicate Prefixes(won: seq<Win>, applied: seq<string>) {
    && (forall i, j | 0 <= i < j < |won| :: won[i].names <= won[j].names)
    && forall i | 0 <= i < |won| :: won[i].names <= applied
  }

  /** The lists with which the calls of one process have succeeded, in order. */
  function WinsOf(won: seq<Win>, p: nat): seq<seq<string>> {
    if |won| == 0 then []
    else
      var rest := WinsOf(won[..|won| - 1], p);
      if won[|won| - 1].p == p then rest + [won[|won| - 1].names] else rest
  }

  lemma WinAdded(won: seq<Win>, w: Win, p: nat)
    ensures WinsOf(won + [w], p) == if w.p == p then WinsOf(won, p) + [w.names] else WinsOf(won, p)
  {
    assert (won + [w])[..|won|] == won;
  }

  ghost predicate Inv(exec: Engine, c: Content, s: Store) {
    && Rows(s.ledger, Applied(s.log)) && Distinct(Applied(s.log))
    && Replay(exec, c, s.log) == Some(s.content)
    && (forall p {:trigger ProcOk(Applied(s.log), s.procs[p])} | p in s.procs :: ProcOk(Applied(s.log), s.procs[p]))
    && Prefixes(s.won, Applied(s.log))
  }

  /** Listing the rows by position gives the names in order. */
  lemma ListedInOrder(ledger: Ledger, names: seq<string>, positions: seq<nat>)
    requires Rows(ledger, names) && InOrder(ledger, positions)
    ensures NamesAt(ledger, positions) == names
  {
    NoMorePositions(ledger, names, positions);
    forall i: nat | i < |positions| ensures positions[i] == i { PositionIs(ledger, names, positions, i); }
    if |names| > 0 { PositionsFill(ledger, names, positions, |names| - 1); }
  }

  lemma PositionsFill(ledger: Ledger, names: seq<string>, positions: seq<nat>, i: nat)
    requires Rows(ledger, names) && InOrder(ledger, positions) && i < |names|
    ensures i < |positions|
  {
    NoMorePositions(ledger, names, positions);
    assert i in ledger;
    var k :| 0 <= k < |positions| && positions[k] == i;
    PositionIs(ledger, names, positions, k);
  }

  lemma NoMorePositions(ledger: Ledger, names: seq<string>, positions: seq<nat>)
    requires Rows(ledger, names) && InOrder(ledger, positions)
    ensures |positions| <= |names|
  {
    if |names| < |positions| {
      var x := positions[|names|];
      if |names| > 0 { PositionIs(ledger, names, positions, |names| - 1); }
    }
  }

  lemma {:induction false} PositionIs(ledger: Ledger, names: seq<string>, positions: seq<nat>, i: nat)
    requires Rows(ledger, names) && InOrder(ledger, positions) && i < |positions| && i < |names|
    ensures positions[i] == i
  {
    if i == 0 {
    } else {
      PositionIs(ledger, names, positions, i - 1);
    }
    assert positions[i] >= i;
    assert i in ledger;
    var k :| 0 <= k < |positions| && positions[k] == i;
    if k < i { PositionIs(ledger, names, positions, k); }
  }

  /** A new row for a new transaction. */
  lemma RowAdded(ledger: Ledger, log: seq<Txn>, p: nat, m: Migration)
    requires Rows(ledger, Applied(log)) && Distinct(Applied(log)) && |Applied(log)| !in ledger && m.name !in ledger.Values
    ensures Applied(log + [Migrated(p, m)]) == Applied(log) + [m.name]
    ensures Rows(ledger[|Applied(log)| := m.name], Applied(log + [Migrated(p, m)]))
    ensures Distinct(Applied(log + [Migrated(p, m)]))
  {
    assert (log + [Migrated(p, m)])[..|log|] == log;
    forall i | 0 <= i < |Applied(log)| ensures Applied(log)[i] != m.name {
      assert ledger[i] in ledger.Values;
    }
  }

  lemma ReplayOne(exec: Engine, c: Content, log: seq<Txn>, t: Txn, d: Content, e: Content)
    requires Replay(exec, c, log) == Some(d) && RunAll(exec, d, Statements(t)) == Some(e)
    ensures Replay(exec, c, log + [t]) == Some(e)
  {
    assert (log + [t])[..|log|] == log;
  }

  lemma PrefixesMore(won: seq<Win>, applied: seq<string>, more: seq<string>, p: nat)
    requires Prefixes(won, applied) && applied <= more
    ensures Prefixes(won, more) && Prefixes(won + [Win(p, more)], more)
  {
    forall i | 0 <= i < |won| ensures won[i].names <= more { assert won[i].names <= applied; }
  }

  lemma LookKeeps(exec: Engine, c: Content, s: Store, p: nat, list: seq<Migration>, positions: seq<nat>)
    requires Inv(exec, c, s) && Can(s, Look(p, list, positions))
    ensures Inv(exec, c, Looked(s, p, list, positions))
  {
    ListedInOrder(s.ledger, Applied(s.log), positions);
    PrefixesMore(s.won, Applied(s.log), Applied(s.log), p);
    var s' := Looked(s, p, list, positions);
    forall q | q in s'.procs ensures ProcOk(Applied(s'.log), s'.procs[q]) {
      if q in s.procs { assert ProcOk(Applied(s.log), s.procs[q]); }
    }
    if HistoryOk(Applied(s.log), NamesOf(list)) && |Applied(s.log)| == |list| { assert Applied(s.log) == NamesOf(list); }
  }

  /** A call that inserts its row inserts it at the end: the row of any position it has passed is there, and no
      later one can be. */
  lemma AtTheEnd(applied: seq<string>, ledger: Ledger, proc: Process)
    requires Rows(ledger, applied) && ProcOk(applied, proc) && proc.pos !in ledger
    ensures proc.pos == |applied| && NamesOf(proc.list)[..proc.pos] == applied
  {
  }

  lemma ApplyKeeps(exec: Engine, c: Content, s: Store, p: nat, fails: bool)
    requires Inv(exec, c, s) && Can(s, Apply(p, fails))
    ensures Inv(exec, c, ApplyOne(exec, s, p, fails))
    ensures Applied(s.log) <= Applied(ApplyOne(exec, s, p, fails).log)
  {
    var s', proc := ApplyOne(exec, s, p, fails), s.procs[p];
    var m := proc.list[proc.pos];
    assert ProcOk(Applied(s.log), proc);
    if s'.log != s.log {
      AtTheEnd(Applied(s.log), s.ledger, proc);
      RowAdded(s.ledger, s.log, p, m);
      ReplayOne(exec, c, s.log, Migrated(p, m), s.content, s'.content);
      var more := Applied(s.log) + [m.name];
      assert NamesOf(proc.list)[..proc.pos + 1] == more;
      PrefixesMore(s.won, Applied(s.log), more, p);
      if proc.pos + 1 == |proc.list| { assert NamesOf(proc.list) == more; }
    }
    forall q | q in s'.procs ensures ProcOk(Applied(s'.log), s'.procs[q]) {
      assert ProcOk(Applied(s.log), s.procs[q]);
    }
  }

  lemma ExecuteKeeps(exec: Engine, c: Content, s: Store, statements: seq<Statement>, fails: bool)
    requires Inv(exec, c, s)
    ensures Inv(exec, c, Step(exec, s, Execute(statements, fails)))
    ensures Applied(Step(exec, s, Execute(statements, fails)).log) == Applied(s.log)
  {
    var s' := Step(exec, s, Execute(statements, fails));
    if s'.log != s.log {
      assert s'.log[..|s.log|] == s.log;
      ReplayOne(exec, c, s.log, Executed(statements), s.content, s'.content);
      assert Applied(s'.log) == Applied(s.log);
    }
    forall q | q in s'.procs ensures ProcOk(Applied(s'.log), s'.procs[q]) { assert ProcOk(Applied(s.log), s.procs[q]); }
  }

  lemma StepKeeps(exec: Engine, c: Content, s: Store, a: Act)
    requires Inv(exec, c, s) && Can(s, a)
    ensures Inv(exec, c, Step(exec, s, a))
    ensures Applied(s.log) <= Applied(Step(exec, s, a).log) && s.log <= Step(exec, s, a).log
    ensures s.won <= Step(exec, s, a).won
  {
    match a
    case Look(p, list, positions) => LookKeeps(exec, c, s, p, list, positions);
    case Apply(p, fails) => ApplyKeeps(exec, c, s, p, fails);
    case Die(p) =>
      forall q | q in s.procs - {p} ensures ProcOk(Applied(s.log), s.procs[q]) {}
    case Execute(statements, fails) => ExecuteKeeps(exec, c, s, statements, fails);
  }

  /** Over any run of any processes, with failures and deaths anywhere: the ledger keeps positions 0, 1, 2, ... with
      distinct names, it only grows at its end, the content is exactly what the committed transactions make of the
      initial one, and of any two lists that succeeded the earlier is a prefix of the later. */
  lemma {:induction false} LedgerOnlyGrows(exec: Engine, c: Content, s: Store, acts: seq<Act>)
    requires Inv(exec, c, s) && Enabled(exec, s, acts)
    ensures Inv(exec, c, After(exec, s, acts))
    ensures Applied(s.log) <= Applied(After(exec, s, acts).log) && s.log <= After(exec, s, acts).log
    ensures s.won <= After(exec, s, acts).won
    decreases |acts|
  {
    if |acts| == 0 {
    } else {
      StepKeeps(exec, c, s, acts[0]);
      LedgerOnlyGrows(exec, c, Step(exec, s, acts[0]), acts[1..]);
    }
  }

  // ---- Whose migrations they are ---------------------------------------------------------------------

  /** The lists that processes have called `migrate` with. */
  type Asked = set<(nat, seq<Migration>)>

  /** The transaction at `i`, if it is a migration, is the one its process asked for at that place of the ledger. */
  predicate AskedFor(asked: Asked, log: seq<Txn>, i: nat)
    requires i < |log|
  {
    log[i].Migrated? ==>
      exists x :: x in asked && x.0 == log[i].author && IsAt(x.1, |Applied(log[..i])|, log[i].migration)
  }

  predicate IsAt(list: seq<Migration>, k: nat, m: Migration) {
    k < |list| && list[k] == m
  }

  ghost predicate LogAskedFor(asked: Asked, log: seq<Txn>) {
    forall i: nat | i < |log| :: AskedFor(asked, log, i)
  }

  ghost predicate AllAskedFor(asked: Asked, s: Store) {
    LogAskedFor(asked, s.log) && forall p | p in s.procs :: (p, s.procs[p].list) in asked
  }

  /** What is asked by the acts of a run. */
  function AskedBy(acts: seq<Act>): Asked {
    set i | 0 <= i < |acts| && acts[i].Look? :: (acts[i].p, acts[i].list)
  }

  function AskedIn(a: Act): Asked {
    if a.Look? then {(a.p, a.list)} else {}
  }

  lemma AskedMore(asked: Asked, more: Asked, log: seq<Txn>)
    requires LogAskedFor(asked, log) && asked <= more
    ensures LogAskedFor(more, log)
  {
    forall i: nat | i < |log| ensures AskedFor(more, log, i) { assert AskedFor(asked, log, i); }
  }

  lemma AskedLog(asked: Asked, log: seq<Txn>, t: Txn)
    requires LogAskedFor(asked, log)
    requires t.Migrated? ==> exists x :: x in asked && x.0 == t.author && IsAt(x.1, |Applied(log)|, t.migration)
    ensures LogAskedFor(asked, log + [t])
  {
    forall i: nat | i < |log + [t]| ensures AskedFor(asked, log + [t], i) {
      if i < |log| {
        assert AskedFor(asked, log, i) && (log + [t])[..i] == log[..i];
      } else {
        assert (log + [t])[..i] == log;
      }
    }
  }

  lemma AskedApply(exec: Engine, c: Content, s: Store, p: nat, fails: bool, asked: Asked)
    requires Inv(exec, c, s) && Can(s, Apply(p, fails)) && AllAskedFor(asked, s)
    ensures AllAskedFor(asked, ApplyOne(exec, s, p, fails))
  {
    var s', proc := ApplyOne(exec, s, p, fails), s.procs[p];
    if s'.log != s.log {
      ProcKnown(exec, c, s, p);
      AtTheEnd(Applied(s.log), s.ledger, proc);
      assert (p, proc.list) in asked && IsAt(proc.list, |Applied(s.log)|, proc.list[proc.pos]);
      AskedLog(asked, s.log, Migrated(p, proc.list[proc.pos]));
    }
  }

  lemma AskedStep(exec: Engine, c: Content, s: Store, a: Act, asked: Asked)
    requires Inv(exec, c, s) && Can(s, a) && AllAskedFor(asked, s)
    ensures AllAskedFor(asked + AskedIn(a), Step(exec, s, a))
  {
    AskedMore(asked, asked + AskedIn(a), s.log);
    match a
    case Look(_, _, _) =>
    case Apply(p, fails) => AskedApply(exec, c, s, p, fails, asked + AskedIn(a));
    case Die(_) =>
    case Execute(statements, fails) => AskedLog(asked + AskedIn(a), s.log, Executed(statements));
  }

  /** Over any run, every migration in the ledger is, statements and all, the one that the process that ran it had asked
      for at that place. */
  lemma {:induction false} RunAsAsked(exec: Engine, c: Content, s: Store, acts: seq<Act>, asked: Asked)
    requires Inv(exec, c, s) && Enabled(exec, s, acts) && AllAskedFor(asked, s)
    ensures AllAskedFor(asked + AskedBy(acts), After(exec, s, acts))
    decreases |acts|
  {
    if |acts| == 0 {
      assert asked + AskedBy(acts) == asked;
    } else {
      StepKeeps(exec, c, s, acts[0]);
      AskedStep(exec, c, s, acts[0], asked);
      RunAsAsked(exec, c, Step(exec, s, acts[0]), acts[1..], asked + AskedIn(acts[0]));
      AskedByAll(acts);
      assert asked + AskedIn(acts[0]) + AskedBy(acts[1..]) == asked + AskedBy(acts);
    }
  }

  lemma AskedByAll(acts: seq<Act>)
    requires |acts| > 0
    ensures AskedIn(acts[0]) + AskedBy(acts[1..]) == AskedBy(acts)
  {
    forall x | x in AskedBy(acts) ensures x in AskedIn(acts[0]) + AskedBy(acts[1..]) {
      var i :| 0 <= i < |acts| && acts[i].Look? && x == (acts[i].p, acts[i].list);
      if i > 0 { assert acts[1..][i - 1] == acts[i]; }
    }
    forall x | x in AskedBy(acts[1..]) ensures x in AskedBy(acts) {
      var i :| 0 <= i < |acts[1..]| && acts[1..][i].Look? && x == (acts[1..][i].p, acts[1..][i].list);
      assert acts[i + 1] == acts[1..][i];
    }
  }

  /** The same, from an empty database, in full. */
  lemma FromEmpty(exec: Engine, c: Content, acts: seq<Act>)
    requires Enabled(exec, Store(map[], c, map[], [], []), acts)
    ensures var s := After(exec, Store(map[], c, map[], [], []), acts);
            && Rows(s.ledger, Applied(s.log))
            && Distinct(Applied(s.log)) && Explained(exec, c, s.log, s.content)
            && (forall i, j | 0 <= i < j < |s.won| :: s.won[i].names <= s.won[j].names <= Applied(s.log))
            && LogAskedFor(AskedBy(acts), s.log)
  {
    RunAsAsked(exec, c, Store(map[], c, map[], [], []), acts, {});
    assert {} + AskedBy(acts) == AskedBy(acts);
    LedgerOnlyGrows(exec, c, Store(map[], c, map[], [], []), acts);
    var s := After(exec, Store(map[], c, map[], [], []), acts);
    ReplayExplains(exec, c, s.log, s.content);
  }

  // ---- The driver --------------------------------------------------------------------------------------

  datatype MigrateError = Duplicate(name: string) | Removed | Rewritten(pos: nat) | Refused(name: string)

  /** `_check_history` */
  method CheckHistory(applied: seq<string>, names: seq<string>) returns (r: Option<MigrateError>)
    ensures r.None? <==> HistoryOk(applied, names)
    ensures r.Some? ==> match r.value
            case Duplicate(name) => exists i, j | 0 <= i < j < |names| :: names[i] == names[j] == name
            case Removed => Distinct(names) && |applied| > |names|
            case Rewritten(pos) => Distinct(names) && pos < |applied| && pos < |names| && applied[pos] != names[pos]
            case Refused(_) => false
  {
    var i := 0;
    while i < |names|
      invariant 0 <= i <= |names| && Distinct(names[..i])
    {
      if names[i] in names[..i] {
        var k :| 0 <= k < i && names[..i][k] == names[i];
        return Some(Duplicate(names[i]));
      }
      assert names[..i + 1] == names[..i] + [names[i]];
      i := i + 1;
    }
    assert names[..i] == names;
    if |applied| > |names| { return Some(Removed); }
    i := 0;
    while i < |applied|
      invariant 0 <= i <= |applied| && applied[..i] == names[..i]
    {
      if applied[i] != names[i] { return Some(Rewritten(i)); }
      i := i + 1;
    }
    assert applied[..i] == applied;
    r := None;
  }

  class Database {
    const exec: Engine
    ghost const initial: Content
    var ledger: Ledger
    var content: Content
    var procs: map<nat, Process>
    ghost var log: seq<Txn>
    ghost var won: seq<Win>
    ghost var asked: Asked

    ghost function State(): Store
      reads this
    {
      Store(ledger, content, procs, log, won)
    }

    ghost predicate Valid()
      reads this
    {
      Inv(exec, initial, State()) && AllAskedFor(asked, State())
    }

    constructor (engine: Engine, c: Content)
      ensures Valid() && exec == engine && initial == c && State() == Store(map[], c, map[], [], []) && asked == {}
    {
      exec, initial, ledger, content, procs, log, won, asked := engine, c, map[], c, map[], [], [], {};
    }

    /** What other processes do between this one's transactions. */
    method Others(p: nat)
      requires Valid()
      modifies this
      ensures Valid() && Later(old(State()), State())
      ensures Alone(old(State()), State(), p) && AskedOf(asked, p) == AskedOf(old(asked), p)
    {
      var n :| n >= 0;
      while n > 0
        invariant Valid() && Later(old(State()), State())
        invariant Alone(old(State()), State(), p) && AskedOf(asked, p) == AskedOf(old(asked), p)
        decreases n
      {
        OneOther(p);
        n := n - 1;
      }
    }

    /** One act of another process: any that is possible. */
    method OneOther(p: nat)
      requires Valid()
      modifies this
      ensures Valid() && Later(old(State()), State())
      ensures Alone(old(State()), State(), p) && AskedOf(asked, p) == AskedOf(old(asked), p)
    {
      var q: nat :| q >= 0;
      var fails: bool := *;
      if q == p {
        Executes(p, fails);
      } else if q !in procs {
        Looks(q, p);
      } else if fails {
        Dies(q);
      } else {
        Continues(q);
      }
    }

    method Executes(p: nat, fails: bool)
      requires Valid()
      modifies this`content, this`log
      ensures Valid() && Later(old(State()), State()) && Alone(old(State()), State(), p)
    {
      var statements: seq<Statement> := *;
      NoneByOne(log, Executed(statements), p);
      ExecuteAll(statements, fails);
    }

    method Looks(q: nat, p: nat)
      requires Valid() && q !in procs && q != p
      modifies this`procs, this`won, this`asked
      ensures Valid() && Later(old(State()), State()) && Alone(old(State()), State(), p)
      ensures AskedOf(asked, p) == AskedOf(old(asked), p)
    {
      var list: seq<Migration> := *;
      WinAdded(won, Win(q, NamesOf(list)), p);
      NoneByOne(log, Executed([]), p);
      var r := LookAt(q, list);
    }

    method Dies(q: nat)
      requires Valid() && q in procs
      modifies this`procs
      ensures Valid() && procs == old(procs) - {q}
    {
      StepKeeps(exec, initial, State(), Die(q));
      AskedStep(exec, initial, State(), Die(q), asked);
      assert asked + AskedIn(Die(q)) == asked;
      procs := procs - {q};
    }

    method Continues(q: nat)
      requires Valid() && q in procs
      modifies this`ledger, this`content, this`procs, this`log, this`won
      ensures Valid() && Later(old(State()), State())
      ensures forall p | p != q :: Alone(old(State()), State(), p)
    {
      ProcKnown(exec, initial, State(), q);
      var fails: bool := *;
      OthersStay(exec, State(), q, fails);
      var ok := ApplyNext(q, fails);
    }

    /** `execute`: all of the statements, or none. */
    method ExecuteAll(statements: seq<Statement>, fails: bool)
      requires Valid()
      modifies this`content, this`log
      ensures Valid() && Later(old(State()), State())
      ensures State() == Step(exec, old(State()), Execute(statements, fails))
      ensures if !fails && exists d :: Runs(exec, old(content), statements, d)
              then log == old(log) + [Executed(statements)] && Runs(exec, old(content), statements, content)
              else log == old(log) && content == old(content)
    {
      StepKeeps(exec, initial, State(), Execute(statements, fails));
      AskedStep(exec, initial, State(), Execute(statements, fails), asked);
      assert asked + AskedIn(Execute(statements, fails)) == asked;
      var c := RunStatements(content, statements);
      forall d ensures c == Some(d) <==> Runs(exec, content, statements, d) {
        RunAllExactly(exec, content, statements, d);
      }
      if !fails && c.Some? {
        content := c.value;
        log := log + [Executed(statements)];
      }
    }

    /** The statements of a transaction, one after the other, on its own view of the content. */
    method RunStatements(c: Content, statements: seq<Statement>) returns (r: Option<Content>)
      ensures r == RunAll(exec, c, statements)
    {
      r := Some(c);
      var i := 0;
      while i < |statements|
        invariant 0 <= i <= |statements| && r == RunAll(exec, c, statements[..i]) && r.Some?
      {
        assert statements[..i + 1][..i] == statements[..i];
        r := exec(r.value, statements[i]);
        if r.None? {
          RefusedStays(exec, c, statements, i + 1);
          return;
        }
        i := i + 1;
      }
      assert statements[..i] == statements;
    }

    /** The first look at the ledger: read it, check the list against it. */
    method LookAt(p: nat, list: seq<Migration>) returns (r: Option<MigrateError>)
      requires Valid() && p !in procs
      modifies this`procs, this`won, this`asked
      ensures asked == old(asked) + {(p, list)}
      ensures Valid() && Later(old(State()), State()) && (r.None? <==> HistoryOk(Applied(log), NamesOf(list)))
      ensures r.Some? ==> !r.value.Refused?
      ensures p in procs ==> r.None? && procs[p] == Process(list, |Applied(log)|)
      ensures won == if r.None? && p !in procs then old(won) + [Win(p, NamesOf(list))] else old(won)
      ensures procs == if p in procs then old(procs)[p := procs[p]] else old(procs)
    {
      var positions := Positions();
      ListedInOrder(ledger, Applied(log), positions);
      StepKeeps(exec, initial, State(), Look(p, list, positions));
      AskedStep(exec, initial, State(), Look(p, list, positions), asked);
      asked := asked + {(p, list)};
      var applied := NamesAt(ledger, positions);
      r := CheckHistory(applied, NamesOf(list));
      if r.Some? { return; }
      if |applied| == |list| {
        won := won + [Win(p, NamesOf(list))];
      } else {
        procs := procs[p := Process(list, |applied|)];
      }
    }

    /** `ORDER BY pos` */
    method Positions() returns (positions: seq<nat>)
      requires Valid()
      ensures InOrder(ledger, positions)
    {
      positions := [];
      var i := 0;
      while i in ledger
        invariant |positions| == i <= |Applied(log)| && forall k | 0 <= k < i :: positions[k] == k
        decreases |Applied(log)| - i
      {
        positions := positions + [i];
        i := i + 1;
      }
      forall q | q in ledger ensures q in positions { assert positions[q] == q; }
    }

    /** One migration's transaction. */
    method ApplyNext(p: nat, fails: bool) returns (ok: bool)
      requires Valid() && p in procs && procs[p].pos < |procs[p].list|
      modifies this`ledger, this`content, this`procs, this`log, this`won
      ensures Valid() && Later(old(State()), State()) && State() == ApplyOne(exec, old(State()), p, fails)
      ensures ok <==> log != old(log)
    {
      StepKeeps(exec, initial, State(), Apply(p, fails));
      AskedApply(exec, initial, State(), p, fails, asked);
      ok := Commit(p, fails);
    }

    method Commit(p: nat, fails: bool) returns (ok: bool)
      requires p in procs && procs[p].pos < |procs[p].list|
      modifies this`ledger, this`content, this`procs, this`log, this`won
      ensures State() == ApplyOne(exec, old(State()), p, fails)
      ensures ok <==> log != old(log)
    {
      ghost var next := ApplyOne(exec, State(), p, fails);
      var proc := procs[p];
      var m := proc.list[proc.pos];
      var c := RunStatements(content, m.statements);
      ok := !fails && c.Some? && proc.pos !in ledger && m.name !in ledger.Values;
      if !ok || proc.pos + 1 == |proc.list| {
        procs := procs - {p};
      } else {
        procs := procs[p := Process(proc.list, proc.pos + 1)];
      }
      assert procs == next.procs;
      if ok {
        ledger, content := ledger[proc.pos := m.name], c.value;
        log := log + [Migrated(p, m)];
        if proc.pos + 1 == |proc.list| { won := won + [Win(p, NamesOf(proc.list))]; }
        assert |log| > |old(log)|;
      }
      assert State() == next;
    }

    /** `migrate`. If it succeeds, its whole list has become, in order, all there was in the ledger at its last look;
        if it fails, the same holds of every migration before the one that failed, and of that one nothing is there,
        for a reason. Whatever it ran was what its list has at that place, statements and all, and the content is what
        the statements of all committed transactions, each executed, make of the initial one. `works` says which
        migrations of the list the store lets commit. */
    method Migrate(p: nat, list: seq<Migration>, works: nat -> bool) returns (r: Option<MigrateError>)
      requires Valid() && p !in procs
      modifies this
      ensures Valid() && Later(old(State()), State()) && p !in procs
      ensures WinsOf(won, p) == if r.None? then WinsOf(old(won), p) + [NamesOf(list)] else WinsOf(old(won), p)
      ensures Explained(exec, initial, log, content)
      ensures RanOf(old(log), log, p, list) && AskedOf(asked, p) == AskedOf(old(asked), p) + {list}
      ensures r.None? ==> NamesOf(list) <= Applied(log)
      ensures r.Some? && !r.value.Refused? ==>
                exists applied :: Applied(old(log)) <= applied <= Applied(log) && !HistoryOk(applied, NamesOf(list))
      ensures r.Some? && r.value.Refused? ==> FailedAt(exec, initial, list, log, works, r.value.name)
    {
      ghost var start := log;
      r := FirstLook(p, list);
      if p in procs { r := ApplyAll(p, works, start); }
      ReplayExplains(exec, initial, log, content);
    }

    method OthersFirst(p: nat, ghost list: seq<Migration>)
      requires Valid() && p !in procs
      modifies this
      ensures Valid() && Later(old(State()), State()) && p !in procs && WinsOf(won, p) == WinsOf(old(won), p)
      ensures RanOf(old(log), log, p, list) && AskedOf(asked, p) == AskedOf(old(asked), p)
    {
      ghost var start := log;
      Others(p);
      RanOthers(start, start, log, p, list);
    }

    /** The look at the ledger, some time after the call. */
    method FirstLook(p: nat, list: seq<Migration>) returns (r: Option<MigrateError>)
      requires Valid() && p !in procs
      modifies this
      ensures Valid() && Later(old(State()), State())
      ensures RanOf(old(log), log, p, list) && AskedOf(asked, p) == AskedOf(old(asked), p) + {list}
      ensures WinsOf(won, p) ==
              if r.None? && p !in procs then WinsOf(old(won), p) + [NamesOf(list)] else WinsOf(old(won), p)
      ensures p in procs ==> r.None? && procs[p].list == list && procs[p].pos < |list|
      ensures p !in procs && r.None? ==> NamesOf(list) <= Applied(log)
      ensures r.Some? ==> !r.value.Refused? && exists applied ::
                Applied(old(log)) <= applied <= Applied(log) && !HistoryOk(applied, NamesOf(list))
    {
      OthersFirst(p, list);
      ghost var before := won;
      r := LookAt(p, list);
      WinAdded(before, Win(p, NamesOf(list)), p);
      if p in procs {
        ProcKnown(exec, initial, State(), p);
      } else if r.None? {
        assert Applied(log) == NamesOf(list);
      }
    }

    /** The transactions of the migrations that are not applied yet. */
    method ApplyAll(p: nat, works: nat -> bool, ghost start: seq<Txn>) returns (r: Option<MigrateError>)
      requires Valid() && p in procs && procs[p].pos < |procs[p].list| && RanOf(start, log, p, procs[p].list)
      modifies this
      ensures Valid() && Later(old(State()), State()) && p !in procs
      ensures RanOf(start, log, p, old(procs)[p].list) && AskedOf(asked, p) == AskedOf(old(asked), p)
      ensures var list := old(procs)[p].list;
              if r.None? then WinsOf(won, p) == WinsOf(old(won), p) + [NamesOf(list)] && NamesOf(list) <= Applied(log)
              else WinsOf(won, p) == WinsOf(old(won), p) && r.value.Refused? &&
                   FailedAt(exec, initial, list, log, works, r.value.name)
    {
      ghost var list := procs[p].list;
      while true
        invariant Valid() && Later(old(State()), State()) && WinsOf(won, p) == WinsOf(old(won), p)
        invariant p in procs && procs[p].list == list && procs[p].pos < |list|
        invariant RanOf(start, log, p, list) && AskedOf(asked, p) == AskedOf(old(asked), p)
        decreases |list| - procs[p].pos
      {
        ghost var before := log;
        Others(p);
        RanOthers(start, before, log, p, list);
        var name := procs[p].list[procs[p].pos].name;
        var ok := ApplyOrFail(p, works, start);
        if !ok { return Some(Refused(name)); }
        if p !in procs { return None; }
      }
    }

    method ApplyOrFail(p: nat, works: nat -> bool, ghost start: seq<Txn>) returns (ok: bool)
      requires Valid() && p in procs && procs[p].pos < |procs[p].list| && RanOf(start, log, p, procs[p].list)
      modifies this`ledger, this`content, this`procs, this`log, this`won
      ensures Valid() && Later(old(State()), State()) && RanOf(start, log, p, old(procs)[p].list)
      ensures var proc, wins := old(procs)[p], WinsOf(old(won), p);
              if !ok then p !in procs && WinsOf(won, p) == wins &&
                          FailedAt(exec, initial, proc.list, log, works, proc.list[proc.pos].name)
              else if proc.pos + 1 == |proc.list|
              then p !in procs && WinsOf(won, p) == wins + [NamesOf(proc.list)] && NamesOf(proc.list) <= Applied(log)
              else p in procs && procs[p] == Process(proc.list, proc.pos + 1) && WinsOf(won, p) == wins
    {
      ProcKnown(exec, initial, State(), p);
      ghost var proc := procs[p];
      var fails := !works(procs[p].pos);
      ApplyOutcome(exec, State(), p, fails);
      ApplyReason(exec, initial, State(), p, fails);
      ApplyRuns(exec, initial, State(), p, fails, start);
      WinAdded(won, Win(p, NamesOf(proc.list)), p);
      ok := ApplyNext(p, fails);
      if !ok {
        assert NamesOf(proc.list)[..proc.pos] <= Applied(log);
        assert fails || Blocked(exec, initial, proc.list[proc.pos], proc.pos, log);
      }
    }
  }

  function AskedOf(asked: Asked, p: nat): set<seq<Migration>> {
    set x | x in asked && x.0 == p :: x.1
  }

  /** Each migration that `p` has run since `start` is the one that its list has at that place of the ledger. */
  ghost predicate RanOf(start: seq<Txn>, log: seq<Txn>, p: nat, list: seq<Migration>) {
    start <= log && forall i: nat | |start| <= i < |log| :: RanAt(log, i, p, list)
  }

  predicate RanAt(log: seq<Txn>, i: nat, p: nat, list: seq<Migration>) {
    i < |log| && (log[i].Migrated? && log[i].author == p ==> IsAt(list, |Applied(log[..i])|, log[i].migration))
  }

  /** `p` has run nothing in between. */
  ghost predicate NoneBy(log: seq<Txn>, more: seq<Txn>, p: nat) {
    log <= more && forall i | |log| <= i < |more| && more[i].Migrated? :: more[i].author != p
  }

  lemma RanOthers(start: seq<Txn>, log: seq<Txn>, more: seq<Txn>, p: nat, list: seq<Migration>)
    requires RanOf(start, log, p, list) && NoneBy(log, more, p)
    ensures RanOf(start, more, p, list)
  {
    forall i: nat | |start| <= i < |more| ensures RanAt(more, i, p, list) {
      if i < |log| { assert RanAt(log, i, p, list) && more[..i] == log[..i]; }
    }
  }

  /** One transaction of a call: what was run is what its list has there. */
  lemma ApplyRuns(exec: Engine, c: Content, s: Store, p: nat, fails: bool, start: seq<Txn>)
    requires Inv(exec, c, s) && Can(s, Apply(p, fails)) && RanOf(start, s.log, p, s.procs[p].list)
    ensures var s', proc := ApplyOne(exec, s, p, fails), s.procs[p];
            && RanOf(start, s'.log, p, proc.list)
            && (s'.log != s.log ==> NamesOf(proc.list)[..proc.pos + 1] <= Applied(s'.log))
  {
    var s', proc := ApplyOne(exec, s, p, fails), s.procs[p];
    if s'.log != s.log {
      ProcKnown(exec, c, s, p);
      AtTheEnd(Applied(s.log), s.ledger, proc);
      assert s'.log[..|s.log|] == s.log;
      forall i: nat | |start| <= i < |s'.log| ensures RanAt(s'.log, i, p, proc.list) {
        if i < |s.log| { assert RanAt(s.log, i, p, proc.list) && s'.log[..i] == s.log[..i]; }
      }
    }
  }

  lemma OthersStay(exec: Engine, s: Store, q: nat, fails: bool)
    requires Can(s, Apply(q, fails))
    ensures forall p | p != q :: Alone(s, ApplyOne(exec, s, q, fails), p)
  {
    forall p | p != q ensures Alone(s, ApplyOne(exec, s, q, fails), p) { OtherStays(exec, s, q, fails, p); }
  }

  lemma OtherStays(exec: Engine, s: Store, q: nat, fails: bool, p: nat)
    requires Can(s, Apply(q, fails)) && p != q
    ensures Alone(s, ApplyOne(exec, s, q, fails), p)
  {
    var s', proc := ApplyOne(exec, s, q, fails), s.procs[q];
    WinAdded(s.won, Win(q, NamesOf(proc.list)), p);
    NoneByOne(s.log, Migrated(q, proc.list[proc.pos]), p);
    ApplyLog(exec, s, q, fails);
  }

  lemma ApplyLog(exec: Engine, s: Store, q: nat, fails: bool)
    requires Can(s, Apply(q, fails))
    ensures var s', proc := ApplyOne(exec, s, q, fails), s.procs[q];
            && (s'.log == s.log || s'.log == s.log + [Migrated(q, proc.list[proc.pos])])
            && (s'.won == s.won || s'.won == s.won + [Win(q, NamesOf(proc.list))])
  {
  }

  lemma NoneByOne(log: seq<Txn>, t: Txn, p: nat)
    requires t.Migrated? ==> t.author != p
    ensures NoneBy(log, log + [t], p) && NoneBy(log, log, p)
  {
  }

  /** The call of process `p`, if it has one, is where it was, none of its calls has succeeded meanwhile, and it has run
      nothing. */
  ghost predicate Alone(s: Store, s': Store, p: nat) {
    && (p in s'.procs) == (p in s.procs) && (p in s'.procs ==> s'.procs[p] == s.procs[p])
    && WinsOf(s'.won, p) == WinsOf(s.won, p) && NoneBy(s.log, s'.log, p)
  }

  /** How one transaction leaves its call. */
  lemma ApplyOutcome(exec: Engine, s: Store, p: nat, fails: bool)
    requires Can(s, Apply(p, fails))
    ensures var s', proc := ApplyOne(exec, s, p, fails), s.procs[p];
            if s'.log == s.log then p !in s'.procs && s'.won == s.won
            else if proc.pos + 1 == |proc.list| then p !in s'.procs && s'.won == s.won + [Win(p, NamesOf(proc.list))]
            else p in s'.procs && s'.procs[p] == Process(proc.list, proc.pos + 1) && s'.won == s.won
  {
    var s' := ApplyOne(exec, s, p, fails);
    if s'.log != s.log { assert |s'.log| == |s.log| + 1; }
  }

  /** Why a transaction that the store does not fail is rolled back: its statements are refused on the content
      there is, or another process has taken its position or its name. */
  ghost predicate Blocked(exec: Engine, c: Content, m: Migration, pos: nat, log: seq<Txn>) {
    || (exists d :: Explained(exec, c, log, d) && !exists e :: Runs(exec, d, m.statements, e))
    || pos < |Applied(log)| || m.name in Applied(log)
  }

  lemma ApplyReason(exec: Engine, c: Content, s: Store, p: nat, fails: bool)
    requires Inv(exec, c, s) && Can(s, Apply(p, fails))
    ensures ApplyOne(exec, s, p, fails).log == s.log ==>
              fails || Blocked(exec, c, s.procs[p].list[s.procs[p].pos], s.procs[p].pos, s.log)
  {
    var s', m := ApplyOne(exec, s, p, fails), s.procs[p].list[s.procs[p].pos];
    if s'.log != s.log {
      assert |s'.log| == |s.log| + 1;
    } else if RunAll(exec, s.content, m.statements).None? {
      ReplayExplains(exec, c, s.log, s.content);
      forall e ensures !Runs(exec, s.content, m.statements, e) { RunAllExactly(exec, s.content, m.statements, e); }
    } else if m.name in s.ledger.Values {
      var i :| i in s.ledger && s.ledger[i] == m.name;
      assert Applied(s.log)[i] == m.name;
    }
  }

  /** Everything before the migration of this name has been applied, in order, and that one failed for a reason. */
  ghost predicate FailedAt(exec: Engine, c: Content, list: seq<Migration>, log: seq<Txn>, works: nat -> bool,
                           name: string) {
    exists k | 0 <= k < |list| ::
      && list[k].name == name && NamesOf(list)[..k] <= Applied(log)
      && (!works(k) || Blocked(exec, c, list[k], k, log))
  }

  /** From `s` on, the ledger, the transactions and the successes are only added to. */
  predicate Later(s: Store, s': Store) {
    Applied(s.log) <= Applied(s'.log) && s.log <= s'.log && s.won <= s'.won
  }

  lemma {:induction false} RefusedStays(exec: Engine, c: Content, statements: seq<Statement>, n: nat)
    requires n <= |statements| && RunAll(exec, c, statements[..n]).None?
    ensures RunAll(exec, c, statements).None?
    decreases |statements|
  {
    if n < |statements| {
      var shorter := statements[..|statements| - 1];
      assert shorter[..n] == statements[..n];
      RefusedStays(exec, c, shorter, n);
    } else {
      assert statements[..n] == statements;
    }
  }

  lemma ProcKnown(exec: Engine, c: Content, s: Store, p: nat)
    requires Inv(exec, c, s) && p in s.procs
    ensures ProcOk(Applied(s.log), s.procs[p])
  {
  }
}
