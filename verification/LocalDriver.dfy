/** The driver's methods (modules/filesystem/local.py): each system call a method on the shared file system, and
    reading, replacing, copying, renaming and deleting as sequences of them with any other calls in between. */
module LocalDriver {
  import opened Texts
  import opened Wrappers
  import opened AtomicFiles
  import opened AtomicFilesSteps

  /** Where a method makes a system call. */
  datatype Site =
    | AtStat | AtOpen | AtRead | AtPutStat | AtOpenTemp | AtWrite | AtSync | AtChmod | AtPlace | AtUnlink | AtLink

  /** Which system calls the kernel lets succeed, by place and, in loops, by turn. */
  type Kernel = (Site, nat) -> bool

  /** A system call that was made. */
  datatype Made = Made(id: nat, site: Site, turn: nat)

  /** Since position `from`, a system call that this task made was let fail. */
  ghost predicate Faulted(works: Kernel, from: nat, calls: seq<Made>, id: nat) {
    exists i | from <= i < |calls| :: calls[i].id == id && !works(calls[i].site, calls[i].turn)
  }

  lemma FaultedLater(works: Kernel, from: nat, calls: seq<Made>, more: seq<Made>, id: nat)
    requires Faulted(works, from, calls, id) && calls <= more
    ensures Faulted(works, from, more, id)
  {
    var i :| from <= i < |calls| && calls[i].id == id && !works(calls[i].site, calls[i].turn);
    assert more[i] == calls[i];
  }

  lemma FaultedSooner(works: Kernel, from: nat, since: nat, calls: seq<Made>, id: nat)
    requires Faulted(works, since, calls, id) && from <= since
    ensures Faulted(works, from, calls, id)
  {
    var i :| since <= i < |calls| && calls[i].id == id && !works(calls[i].site, calls[i].turn);
  }

  lemma JustFaulted(works: Kernel, from: nat, calls: seq<Made>, id: nat, site: Site, turn: nat)
    requires |calls| > from && calls[|calls| - 1] == Made(id, site, turn)
    ensures !works(site, turn) ==> Faulted(works, from, calls, id)
  {
    if !works(site, turn) { assert calls[|calls| - 1].id == id; }
  }

  class Disk {
    const umask: nat -> nat
    var files: Files
    var hist: History
    var temps: map<nat, nat>
    var next: nat
    var tasks: map<nat, Phase>
    var owner: map<nat, nat>
    var published: set<nat>
    var offered: set<Bytes>
    /** The system calls the methods below have made, in order. */
    ghost var calls: seq<Made>

    function State(): FS
      reads this
    {
      FS(files, hist, temps, next, tasks, owner, published, offered)
    }

    ghost predicate Valid()
      reads this
    {
      Inv(umask, State())
    }

    constructor (mask: nat -> nat, s: FS)
      requires Start(s)
      ensures Valid() && umask == mask && State() == s
    {
      umask := mask;
      files, hist, temps, next, tasks := s.files, s.hist, s.temps, s.next, s.tasks;
      owner, published, offered, calls := s.owner, s.published, s.offered, [];
    }

    // ---- System calls --------------------------------------------------------------------------------

    method StatForRead(id: nat, works: Kernel, turn: nat)
      requires id in tasks && tasks[id].FetchStat?
      modifies this`tasks, this`calls
      ensures State() == FetchCall(old(State()), id, works(AtStat, turn), 0)
      ensures calls == old(calls) + [Made(id, AtStat, turn)]
    {
      var ok := works(AtStat, turn);
      calls := calls + [Made(id, AtStat, turn)];
      var call := tasks[id];
      var f := Now(hist, call.path);
      if !ok || f.None? || f.value !in files {
        tasks := tasks[id := Failed];
      } else {
        tasks := tasks[id := FetchOpen(call.path, call.from, call.purpose, files[f.value].mode)];
      }
    }

    method OpenForRead(id: nat, works: Kernel, turn: nat)
      requires id in tasks && tasks[id].FetchOpen?
      modifies this`tasks, this`calls
      ensures State() == FetchCall(old(State()), id, works(AtOpen, turn), 0)
      ensures calls == old(calls) + [Made(id, AtOpen, turn)]
    {
      var ok := works(AtOpen, turn);
      calls := calls + [Made(id, AtOpen, turn)];
      var call := tasks[id];
      if !ok || Now(hist, call.path).None? {
        tasks := tasks[id := Failed];
      } else {
        var at := |Hist(hist, call.path)| - 1;
        tasks := tasks[id := Fetching(call.path, call.from, call.purpose, call.mode, at, [])];
      }
    }

    /** Reads some more of the opened file, or finds its end. */
    method ReadSome(id: nat, works: Kernel, turn: nat, n: nat)
      requires id in tasks && tasks[id].Fetching?
      modifies this`tasks, this`calls
      ensures State() == FetchCall(old(State()), id, works(AtRead, turn), n)
      ensures calls == old(calls) + [Made(id, AtRead, turn)]
    {
      var ok := works(AtRead, turn);
      calls := calls + [Made(id, AtRead, turn)];
      var call := tasks[id];
      var data := Opened(files, hist, call.path, call.at);
      if !ok {
        tasks := tasks[id := Failed];
      } else if |call.got| < |data| {
        tasks := tasks[id := call.(got := call.got + Piece(data, |call.got|, n))];
      } else if call.purpose.ToReturn? {
        tasks := tasks[id := Got(call.path, call.from, call.at, call.got)];
      } else {
        tasks := tasks[id := PutStat(call.purpose.dst, call.got, call.mode)];
      }
    }

    method StatForPut(id: nat, works: Kernel, turn: nat)
      requires id in tasks && tasks[id].PutStat?
      modifies this`tasks, this`calls
      ensures State() == StartCall(umask, old(State()), id, works(AtPutStat, turn), 0)
      ensures calls == old(calls) + [Made(id, AtPutStat, turn)]
    {
      var ok := works(AtPutStat, turn);
      calls := calls + [Made(id, AtPutStat, turn)];
      var call := tasks[id];
      if !ok {
        tasks := tasks[id := Failed];
        return;
      }
      var f := Now(hist, call.path);
      var found := if f.Some? && f.value in files then Some(files[f.value].mode) else None;
      tasks := tasks[id := PutOpen(call.path, call.content, call.mode, found)];
    }

    /** One turn of `_open_temp`: `O_CREAT | O_EXCL` under a name that may be taken. */
    method OpenTemp(id: nat, works: Kernel, turn: nat, name: nat)
      requires id in tasks && tasks[id].PutOpen?
      modifies this
      ensures State() == StartCall(umask, old(State()), id, works(AtOpenTemp, turn), name)
      ensures calls == old(calls) + [Made(id, AtOpenTemp, turn)]
    {
      var ok := works(AtOpenTemp, turn);
      calls := calls + [Made(id, AtOpenTemp, turn)];
      var call := tasks[id];
      if !ok {
        tasks := tasks[id := Failed];
      } else if name !in temps {
        var mode := if call.found.None? then call.mode else PRIVATE;
        files := files[next := File([], [], umask(mode))];
        temps := temps[name := next];
        owner := owner[next := id];
        tasks := tasks[id := Writing(Put(call.path, call.content, call.mode, call.found, name, next))];
        next := next + 1;
      }
    }

    method WriteSome(id: nat, works: Kernel, turn: nat, n: nat)
      requires id in tasks && tasks[id].Writing?
      modifies this`tasks, this`files, this`calls
      ensures State() == PutCall(old(State()), id, works(AtWrite, turn), n)
      ensures calls == old(calls) + [Made(id, AtWrite, turn)]
    {
      var ok := works(AtWrite, turn);
      calls := calls + [Made(id, AtWrite, turn)];
      var put := tasks[id].put;
      if !ok || put.file !in files {
        tasks := tasks[id := Cleaning(put)];
      } else if |files[put.file].data| < |put.content| {
        var file := files[put.file];
        files := files[put.file := file.(data := file.data + Piece(put.content, |file.data|, n))];
      } else {
        tasks := tasks[id := Syncing(put)];
      }
    }

    method Fsync(id: nat, works: Kernel, turn: nat)
      requires id in tasks && tasks[id].Syncing?
      modifies this`tasks, this`files, this`calls
      ensures State() == PutCall(old(State()), id, works(AtSync, turn), 0)
      ensures calls == old(calls) + [Made(id, AtSync, turn)]
    {
      var ok := works(AtSync, turn);
      calls := calls + [Made(id, AtSync, turn)];
      var put := tasks[id].put;
      if !ok || put.file !in files {
        tasks := tasks[id := Cleaning(put)];
        return;
      }
      files := files[put.file := files[put.file].(synced := files[put.file].data)];
      tasks := tasks[id := if put.found.Some? then Moding(put) else Placing(put)];
    }

    method Chmod(id: nat, works: Kernel, turn: nat)
      requires id in tasks && tasks[id].Moding?
      modifies this`tasks, this`files, this`calls
      ensures State() == PutCall(old(State()), id, works(AtChmod, turn), 0)
      ensures calls == old(calls) + [Made(id, AtChmod, turn)]
    {
      var ok := works(AtChmod, turn);
      calls := calls + [Made(id, AtChmod, turn)];
      var put := tasks[id].put;
      if !ok || put.file !in files || put.found.None? {
        tasks := tasks[id := Cleaning(put)];
        return;
      }
      files := files[put.file := files[put.file].(mode := put.found.value)];
      tasks := tasks[id := Placing(put)];
    }

    /** `rename(2)` of the temporary file into place. */
    method PlaceTemp(id: nat, works: Kernel, turn: nat)
      requires id in tasks && tasks[id].Placing?
      modifies this
      ensures State() == PutCall(old(State()), id, works(AtPlace, turn), 0)
      ensures calls == old(calls) + [Made(id, AtPlace, turn)]
    {
      var ok := works(AtPlace, turn);
      calls := calls + [Made(id, AtPlace, turn)];
      var put := tasks[id].put;
      if !ok {
        tasks := tasks[id := Cleaning(put)];
        return;
      }
      hist := Link(hist, put.path, Some(put.file));
      temps := temps - {put.tmp};
      published := published + {put.file};
      tasks := tasks[id := Done];
    }

    method UnlinkTemp(id: nat, works: Kernel, turn: nat)
      requires id in tasks && tasks[id].Cleaning?
      modifies this`tasks, this`temps, this`calls
      ensures State() == PutCall(old(State()), id, works(AtUnlink, turn), 0)
      ensures calls == old(calls) + [Made(id, AtUnlink, turn)]
    {
      var ok := works(AtUnlink, turn);
      calls := calls + [Made(id, AtUnlink, turn)];
      if ok { temps := temps - {tasks[id].put.tmp}; }
      tasks := tasks[id := Failed];
    }

    /** The stats, and then the call itself, of `rename` and `delete`. */
    method LinkLevel(id: nat, works: Kernel, turn: nat)
      requires id in tasks && InLink(tasks[id])
      modifies this`tasks, this`hist, this`calls
      ensures State() == LinkCall(old(State()), id, works(AtLink, turn))
      ensures calls == old(calls) + [Made(id, AtLink, turn)]
    {
      var ok := works(AtLink, turn);
      calls := calls + [Made(id, AtLink, turn)];
      var call := tasks[id];
      var there := Now(hist, call.path).Some?;
      if !ok || (!call.MoveStatTo? && !there) {
        tasks := tasks[id := Failed];
      } else if call.MoveStat? {
        tasks := tasks[id := MoveStatTo(call.path, call.dst)];
      } else if call.MoveStatTo? {
        tasks := tasks[id := Move(call.path, call.dst)];
      } else if call.Move? {
        hist := Renamed(hist, call.path, call.dst);
        tasks := tasks[id := Done];
      } else if call.DropStat? {
        tasks := tasks[id := Drop(call.path)];
      } else {
        hist := Link(hist, call.path, None);
        tasks := tasks[id := Done];
      }
    }

    // ---- The driver's methods ------------------------------------------------------------------------

    /** What other tasks do meanwhile. */
    method Others(id: nat, ghost start: FS)
      requires Valid() && id in tasks && Later(start, State())
      modifies this
      ensures Valid() && Later(start, State()) && Untouched(umask, old(State()), State(), id) && calls == old(calls)
    {
      var n :| n >= 0;
      assert TaskOk(umask, State(), id, tasks[id]);
      while n > 0
        invariant Valid() && Later(start, State()) && Untouched(umask, old(State()), State(), id) && calls == old(calls)
        decreases n
      {
        OneOther(id, start, old(State()));
        n := n - 1;
      }
    }

    method OneOther(id: nat, ghost start: FS, ghost before: FS)
      requires Valid() && Later(start, State()) && Untouched(umask, before, State(), id)
      modifies this
      ensures Valid() && Later(start, State()) && Untouched(umask, before, State(), id) && calls == old(calls)
    {
      var a: Act := *;
      var s := State();
      if !Can(s, a) || a.id == id { return; }
      var s' := Step(umask, s, a);
      OtherStep(umask, start, before, s, a, id);
      Become(s');
    }

    method Become(s: FS)
      modifies this
      ensures State() == s && calls == old(calls)
    {
      files, hist, temps, next, tasks := s.files, s.hist, s.temps, s.next, s.tasks;
      owner, published, offered := s.owner, s.published, s.offered;
    }

    /** Stat, open, and read to the end: what was read is all of one version the path held since the call began. */
    method Fetch(id: nat, works: Kernel)
      requires Valid() && id in tasks && tasks[id].FetchStat?
      modifies this
      ensures Valid() && Later(old(State()), State()) && id in tasks && old(calls) <= calls
      ensures var call, end := old(tasks)[id], tasks[id];
              if end.Failed?
              then Faulted(works, |old(calls)|, calls, id) || MissingSince(State().hist, call.path, call.from)
              else Ends(call, end) && HeldSince(State(), call.path, call.from, end.content)
    {
      ghost var start := State();
      LaterSelf(umask, start);
      StatFirst(id, start, works, |old(calls)|);
      if tasks[id].Failed? { return; }
      OpenNext(id, start, works, |old(calls)|);
      if tasks[id].Failed? { return; }
      ReadAll(id, start, works, |old(calls)|);
    }

    method StatFirst(id: nat, ghost start: FS, works: Kernel, ghost from: nat)
      requires from <= |calls| && Valid() && Later(start, State()) && id in tasks && tasks[id].FetchStat?
      modifies this
      ensures old(calls) <= calls && Valid() && Later(start, State()) && id in tasks
      ensures var call, end := old(tasks)[id], tasks[id];
              || (end.Failed? && (Faulted(works, from, calls, id) || MissingSince(State().hist, call.path, call.from)))
              || (end.FetchOpen? && end.path == call.path && end.from == call.from && end.purpose == call.purpose)
    {
      Others(id, start);
      ghost var s := State();
      ghost var ok := works(AtStat, 0);
      StatForRead(id, works, 0);
      JustFaulted(works, from, calls, id, AtStat, 0);
      Advance(umask, start, s, State(), id, ok, 0);
      FetchFails(umask, s, id, ok);
    }

    method OpenNext(id: nat, ghost start: FS, works: Kernel, ghost from: nat)
      requires from <= |calls| && Valid() && Later(start, State()) && id in tasks && tasks[id].FetchOpen?
      modifies this
      ensures old(calls) <= calls && Valid() && Later(start, State()) && id in tasks
      ensures var call, end := old(tasks)[id], tasks[id];
              || (end.Failed? && (Faulted(works, from, calls, id) || MissingSince(State().hist, call.path, call.from)))
              || (end.Fetching? && end.path == call.path && end.from == call.from && end.purpose == call.purpose)
    {
      Others(id, start);
      ghost var s := State();
      ghost var ok := works(AtOpen, 0);
      OpenForRead(id, works, 0);
      JustFaulted(works, from, calls, id, AtOpen, 0);
      Advance(umask, start, s, State(), id, ok, 0);
      FetchFails(umask, s, id, ok);
    }

    method ReadAll(id: nat, ghost start: FS, works: Kernel, ghost from: nat)
      requires from <= |calls| && Valid() && Later(start, State()) && id in tasks && tasks[id].Fetching?
      modifies this
      ensures Valid() && Later(start, State()) && id in tasks && old(calls) <= calls
      ensures var open, end := old(tasks)[id], tasks[id];
              if end.Failed? then Faulted(works, from, calls, id)
              else Ends(open, end) && HeldSince(State(), open.path, open.from, end.content)
    {
      assert TaskOk(umask, State(), id, tasks[id]);
      var turn := 0;
      while tasks[id].Fetching?
        invariant Valid() && Later(start, State()) && id in tasks && TaskOk(umask, State(), id, tasks[id])
        invariant ReadingOn(old(State()), State(), id) && old(calls) <= calls
        invariant tasks[id].Failed? ==> Faulted(works, from, calls, id)
        decreases Left(State(), id)
      {
        Others(id, start);
        ghost var s := State();
        ghost var ok := works(AtRead, turn);
        var n :| n >= 0;
        ReadSome(id, works, turn, n);
        JustFaulted(works, from, calls, id, AtRead, turn);
        Advance(umask, start, s, State(), id, ok, n);
        ReadOnce(umask, old(State()), s, State(), id, ok, n);
        turn := turn + 1;
      }
    }

    /** `read`: it fails only if a system call does or the path held nothing at some moment. */
    method Read(id: nat, works: Kernel) returns (content: Option<Bytes>)
      requires Valid() && id in tasks && tasks[id].FetchStat? && tasks[id].purpose.ToReturn?
      modifies this
      ensures Valid() && Later(old(State()), State())
      ensures content.Some? ==> HeldSince(State(), old(tasks)[id].path, old(tasks)[id].from, content.value)
      ensures content.None? ==> Faulted(works, |old(calls)|, calls, id) ||
                                MissingSince(State().hist, old(tasks)[id].path, old(tasks)[id].from)
    {
      Fetch(id, works);
      content := if tasks[id].Got? then Some(tasks[id].content) else None;
    }

    /** `_replace`: it puts exactly the content under the name at some moment of the call, whole and on disk,
        unless a system call fails. */
    method Replace(id: nat, works: Kernel) returns (ok: bool)
      requires Valid() && id in tasks && tasks[id].PutStat?
      modifies this
      ensures Valid() && Later(old(State()), State()) && old(calls) <= calls
      ensures ok ==> var call := old(tasks)[id];
                     HeldSince(State(), call.path, |Hist(old(hist), call.path)|, call.content)
      ensures id in tasks && tasks[id] == if ok then Done else Failed
      ensures !ok ==> Faulted(works, |old(calls)|, calls, id)
    {
      ghost var start := State();
      LaterSelf(umask, start);
      Others(id, start);
      ghost var s := State();
      ok := works(AtPutStat, 0);
      StatForPut(id, works, 0);
      JustFaulted(works, |old(calls)|, calls, id, AtPutStat, 0);
      Advance(umask, start, s, State(), id, ok, 0);
      if !ok { return false; }
      ok := OpenFresh(id, start, works, |old(calls)|);
      if ok { ok := Fill(id, start, works, |old(calls)|); }
    }

    /** Everything after the temporary file is open. */
    method Fill(id: nat, ghost start: FS, works: Kernel, ghost from: nat) returns (ok: bool)
      requires from <= |calls| && Valid() && Later(start, State()) && id in tasks && tasks[id].Writing?
      modifies this
      ensures old(calls) <= calls && Valid() && Later(start, State())
      ensures id in tasks && tasks[id] == if ok then Done else Failed
      ensures !ok ==> Faulted(works, from, calls, id)
      ensures ok ==> PutHeld(start, State(), old(tasks)[id].put)
    {
      WriteAll(id, start, works, from);
      if tasks[id].Syncing? { SyncAndChmod(id, start, works, from); }
      ok := PlaceOrClean(id, start, works, from);
    }

    method SyncAndChmod(id: nat, ghost start: FS, works: Kernel, ghost from: nat)
      requires from <= |calls| && Valid() && Later(start, State()) && id in tasks && tasks[id].Syncing?
      modifies this
      ensures old(calls) <= calls && Valid() && Later(start, State())
      ensures id in tasks && OnItsWay(old(tasks)[id].put, tasks[id], works, from, calls, id)
    {
      SyncFile(id, start, works, from);
      if tasks[id].Moding? { ChmodFile(id, start, works, from); }
    }

    method SyncFile(id: nat, ghost start: FS, works: Kernel, ghost from: nat)
      requires from <= |calls| && Valid() && Later(start, State()) && id in tasks && tasks[id].Syncing?
      modifies this
      ensures old(calls) <= calls && Valid() && Later(start, State()) && id in tasks
      ensures tasks[id] == Moding(old(tasks)[id].put) || OnItsWay(old(tasks)[id].put, tasks[id], works, from, calls, id)
    {
      Others(id, start);
      ghost var s := State();
      ghost var ok := works(AtSync, 0);
      Fsync(id, works, 0);
      JustFaulted(works, from, calls, id, AtSync, 0);
      Advance(umask, start, s, State(), id, ok, 0);
    }

    method ChmodFile(id: nat, ghost start: FS, works: Kernel, ghost from: nat)
      requires from <= |calls| && Valid() && Later(start, State()) && id in tasks && tasks[id].Moding?
      modifies this
      ensures old(calls) <= calls && Valid() && Later(start, State())
      ensures id in tasks && OnItsWay(old(tasks)[id].put, tasks[id], works, from, calls, id)
    {
      Others(id, start);
      ghost var s := State();
      ghost var ok := works(AtChmod, 0);
      Chmod(id, works, 0);
      JustFaulted(works, from, calls, id, AtChmod, 0);
      Advance(umask, start, s, State(), id, ok, 0);
    }

    /** `_open_temp`: names are tried until one is free. */
    method OpenFresh(id: nat, ghost start: FS, works: Kernel, ghost from: nat) returns (ok: bool)
      requires from <= |calls| && Valid() && Later(start, State()) && id in tasks && tasks[id].PutOpen?
      modifies this
      ensures old(calls) <= calls && Valid() && Later(start, State()) && id in tasks
      ensures if ok then tasks[id].Writing? && Carries(old(tasks)[id], tasks[id].put)
              else tasks[id].Failed? && Faulted(works, from, calls, id)
    {
      var collisions :| collisions >= 0;
      var turn := 0;
      ok := true;
      while tasks[id].PutOpen?
        invariant old(calls) <= calls && Valid() && Later(start, State())
        invariant id in tasks && (ok <==> !tasks[id].Failed?) && (!ok ==> Faulted(works, from, calls, id))
        invariant tasks[id] == old(tasks)[id] || tasks[id].Failed? ||
                  (tasks[id].Writing? && Carries(old(tasks)[id], tasks[id].put))
        decreases if tasks[id].PutOpen? then 1 else 0, collisions
      {
        Others(id, start);
        ghost var s := State();
        ok := works(AtOpenTemp, turn);
        var name: nat;
        if collisions > 0 {
          name :| name >= 0;
          collisions := collisions - 1;
        } else {
          SomeNameIsFree(temps.Keys);
          name :| name !in temps.Keys;
        }
        OpenTemp(id, works, turn, name);
        JustFaulted(works, from, calls, id, AtOpenTemp, turn);
        turn := turn + 1;
        Advance(umask, start, s, State(), id, ok, name);
      }
    }

    method WriteAll(id: nat, ghost start: FS, works: Kernel, ghost from: nat)
      requires from <= |calls| && Valid() && Later(start, State()) && id in tasks && tasks[id].Writing?
      modifies this
      ensures old(calls) <= calls && Valid() && Later(start, State()) && id in tasks
      ensures var put := old(tasks)[id].put;
              tasks[id] == Syncing(put) || (tasks[id] == Cleaning(put) && Faulted(works, from, calls, id))
    {
      assert TaskOk(umask, State(), id, tasks[id]);
      var turn := 0;
      while tasks[id].Writing?
        invariant old(calls) <= calls && Valid() && Later(start, State())
        invariant id in tasks && TaskOk(umask, State(), id, tasks[id])
        invariant tasks[id] in {old(tasks)[id], Syncing(old(tasks)[id].put)} ||
                  (tasks[id] == Cleaning(old(tasks)[id].put) && Faulted(works, from, calls, id))
        decreases Left(State(), id)
      {
        WriteOnce(id, start, works, from, turn);
        turn := turn + 1;
      }
    }

    method WriteOnce(id: nat, ghost start: FS, works: Kernel, ghost from: nat, turn: nat)
      requires from <= |calls| && Valid() && Later(start, State()) && id in tasks && tasks[id].Writing?
      modifies this
      ensures old(calls) <= calls && Valid() && Later(start, State())
      ensures id in tasks && TaskOk(umask, State(), id, tasks[id])
      ensures var put := old(tasks)[id].put;
              || (tasks[id] == Writing(put) && Left(State(), id) < Left(old(State()), id))
              || tasks[id] == Syncing(put) || (tasks[id] == Cleaning(put) && Faulted(works, from, calls, id))
    {
      Others(id, start);
      ghost var s := State();
      ghost var ok := works(AtWrite, turn);
      var n :| n >= 0;
      WriteSome(id, works, turn, n);
      JustFaulted(works, from, calls, id, AtWrite, turn);
      Advance(umask, start, s, State(), id, ok, n);
    }

    method PlaceFile(id: nat, ghost start: FS, works: Kernel, ghost from: nat) returns (ok: bool)
      requires from <= |calls| && Valid() && Later(start, State()) && id in tasks && tasks[id].Placing?
      modifies this
      ensures old(calls) <= calls && Valid() && Later(start, State()) && id in tasks
      ensures if ok then tasks[id] == Done && PutHeld(start, State(), old(tasks)[id].put)
              else tasks[id].Cleaning? && Faulted(works, from, calls, id)
    {
      Others(id, start);
      ghost var s := State();
      ok := works(AtPlace, 0);
      PlaceTemp(id, works, 0);
      JustFaulted(works, from, calls, id, AtPlace, 0);
      Advance(umask, start, s, State(), id, ok, 0);
      if ok { PlacedIsHeld(umask, start, s, State(), id); }
    }

    method CleanUp(id: nat, ghost start: FS, works: Kernel)
      requires Valid() && Later(start, State()) && id in tasks && tasks[id].Cleaning?
      modifies this
      ensures old(calls) <= calls && Valid() && Later(start, State()) && id in tasks && tasks[id] == Failed
    {
      Others(id, start);
      ghost var s := State();
      ghost var ok := works(AtUnlink, 0);
      UnlinkTemp(id, works, 0);
      Advance(umask, start, s, State(), id, ok, 0);
    }

    /** The rename into place; whatever went wrong, the temporary is unlinked. */
    method PlaceOrClean(id: nat, ghost start: FS, works: Kernel, ghost from: nat) returns (ok: bool)
      requires from <= |calls| && Valid() && Later(start, State()) && id in tasks
      requires tasks[id].Placing? || (tasks[id].Cleaning? && Faulted(works, from, calls, id))
      modifies this
      ensures old(calls) <= calls && Valid() && Later(start, State())
      ensures id in tasks && tasks[id] == if ok then Done else Failed
      ensures !ok ==> Faulted(works, from, calls, id)
      ensures ok ==> PutHeld(start, State(), old(tasks)[id].put)
    {
      if tasks[id].Placing? {
        ok := PlaceFile(id, start, works, from);
        if ok { return; }
      }
      ok := false;
      ghost var before := calls;
      CleanUp(id, start, works);
      FaultedLater(works, from, before, calls, id);
    }

    /** `copy`: one whole version of the source, held since the call began, is put under the destination. */
    method Copy(id: nat, works: Kernel) returns (ok: bool)
      requires Valid() && id in tasks && tasks[id].FetchStat? && tasks[id].purpose.ToCopy?
      modifies this
      ensures Valid() && Later(old(State()), State())
      ensures ok ==> var call := old(tasks)[id];
                     exists content :: && HeldSince(State(), call.path, call.from, content)
                                       && HeldSince(State(), call.purpose.dst, |Hist(old(hist), call.purpose.dst)|, content)
      ensures !ok ==> Faulted(works, |old(calls)|, calls, id) ||
                      MissingSince(State().hist, old(tasks)[id].path, old(tasks)[id].from)
    {
      ghost var start, call := State(), tasks[id];
      Fetch(id, works);
      if tasks[id].Failed? { return false; }
      ghost var mid, content, since := State(), tasks[id].content, |calls|;
      ok := Replace(id, works);
      if !ok { FaultedSooner(works, |old(calls)|, since, calls, id); }
      LaterTransitive(start, mid, State());
      if ok {
        HeldLater(mid, State(), call.path, call.from, content);
        HeldSooner(State(), call.purpose.dst, |Hist(start.hist, call.purpose.dst)|,
                   |Hist(mid.hist, call.purpose.dst)|, content);
      }
    }

    /** `rename` and `delete`: if they succeed, the last step did it; they fail only if a system call does or the
        name held nothing at some moment. */
    method Relink(id: nat, works: Kernel) returns (ok: bool, ghost s: FS)
      requires Valid() && id in tasks && InLink(tasks[id])
      modifies this
      ensures Valid() && Later(old(State()), State())
      ensures ok ==> id in s.tasks && InLink(s.tasks[id]) && Later(old(State()), s) && State() == LinkCall(s, id, true)
      ensures ok ==> s.tasks[id] == LastStep(old(tasks)[id])
      ensures ok ==> State() == s.(hist := hist, tasks := s.tasks[id := Done])
      ensures ok && Moving(old(tasks)[id]) ==>
                var src, dst := old(tasks)[id].path, old(tasks)[id].dst;
                if Now(s.hist, src) == Now(s.hist, dst) then hist == s.hist
                else && Now(s.hist, src).Some? && Now(hist, dst) == Now(s.hist, src) && Now(hist, src) == None
                     && forall p | p != src && p != dst :: Hist(hist, p) == Hist(s.hist, p)
      ensures ok && !Moving(old(tasks)[id]) ==>
                var path := old(tasks)[id].path;
                && Now(s.hist, path).Some? && Now(hist, path) == None
                && forall p | p != path :: Hist(hist, p) == Hist(s.hist, p)
      ensures id in tasks && tasks[id] == if ok then Done else Failed
      ensures !ok ==> var path := old(tasks)[id].path;
                      || Faulted(works, |old(calls)|, calls, id)
                      || MissingSince(State().hist, path, |Hist(old(hist), path)| - 1)
    {
      ghost var start := State();
      LaterSelf(umask, start);
      s := start;
      ok := true;
      var turn := 0;
      while InLink(tasks[id])
        invariant Valid() && Later(start, State()) && id in tasks
        invariant Relinking(start, s, State(), id) && (ok <==> !tasks[id].Failed?)
        invariant old(calls) <= calls
        invariant !ok ==> Faulted(works, |old(calls)|, calls, id) || RelinkMissed(start, State(), id)
        decreases StepsLeft(tasks[id])
      {
        Others(id, start);
        s := State();
        ok := works(AtLink, turn);
        LinkLevel(id, works, turn);
        JustFaulted(works, |old(calls)|, calls, id, AtLink, turn);
        turn := turn + 1;
        Advance(umask, start, s, State(), id, ok, 0);
        RelinkOnce(start, s, State(), id, ok);
        RelinkFails(start, s, State(), id, ok);
        ok := !tasks[id].Failed?;
      }
      if ok { RelinkNames(s, id); }
    }
  }

  /** A `rename`, at whatever step. */
  predicate Moving(p: Phase) {
    p.MoveStat? || p.MoveStatTo? || p.Move?
  }

  /** What the last step does to the names. */
  lemma RelinkNames(s: FS, id: nat)
    requires id in s.tasks && InLink(s.tasks[id]) && LinkCall(s, id, true).tasks[id] == Done
    ensures var phase, hist := s.tasks[id], LinkCall(s, id, true).hist;
            && LinkCall(s, id, true) == s.(hist := hist, tasks := s.tasks[id := Done])
            && Now(s.hist, phase.path).Some?
            && if Moving(phase) && Now(s.hist, phase.path) == Now(s.hist, phase.dst) then hist == s.hist
               else && (Moving(phase) ==> Now(hist, phase.dst) == Now(s.hist, phase.path)) && Now(hist, phase.path) == None
                    && forall p | p != phase.path && !(Moving(phase) && p == phase.dst) :: Hist(hist, p) == Hist(s.hist, p)
  {
  }

  /** A rename or delete from `start` on; `s` is the state before its last step. */
  ghost predicate Relinking(start: FS, s: FS, now: FS, id: nat) {
    && id in start.tasks && InLink(start.tasks[id]) && id in now.tasks
    && var phase := now.tasks[id];
       if InLink(phase) then LastStep(phase) == LastStep(start.tasks[id])
       else phase.Failed? || (phase.Done? && id in s.tasks && InLink(s.tasks[id]) && Later(start, s) &&
                              now == LinkCall(s, id, true) && s.tasks[id] == LastStep(start.tasks[id]))
  }

  lemma RelinkOnce(start: FS, s: FS, now: FS, id: nat, ok: bool)
    requires Relinking(start, s, s, id) && InLink(s.tasks[id]) && Later(start, s) && now == LinkCall(s, id, ok)
    ensures Relinking(start, s, now, id) && StepsLeft(now.tasks[id]) < StepsLeft(s.tasks[id])
  {
    LinkMoves(s, id, ok);
  }

  /** The name was missing at some moment since `start`. */
  ghost predicate RelinkMissed(start: FS, now: FS, id: nat) {
    id in start.tasks && InLink(start.tasks[id]) &&
    MissingSince(now.hist, start.tasks[id].path, |Hist(start.hist, start.tasks[id].path)| - 1)
  }

  lemma RelinkFails(start: FS, s: FS, now: FS, id: nat, ok: bool)
    requires Relinking(start, s, s, id) && InLink(s.tasks[id]) && Later(start, s) && now == LinkCall(s, id, ok)
    ensures ok && now.tasks[id].Failed? ==> RelinkMissed(start, now, id)
  {
    var path := start.tasks[id].path;
    assert s.tasks[id].path == path;
    assert Hist(start.hist, path) <= Hist(s.hist, path);
    if ok && now.tasks[id].Failed? { assert Hist(now.hist, path)[|Hist(now.hist, path)| - 1] == None; }
  }

  /** Ready to be renamed into place, or to be removed because a system call failed. */
  ghost predicate OnItsWay(put: Put, phase: Phase, works: Kernel, from: nat, calls: seq<Made>, id: nat) {
    phase == Placing(put) || (phase == Cleaning(put) && Faulted(works, from, calls, id))
  }

  /** From position `from` of its history on the path has held nothing for a moment. */
  ghost predicate MissingSince(hist: History, path: Path, from: nat) {
    exists at | from <= at < |Hist(hist, path)| :: Hist(hist, path)[at] == None
  }

  /** A stat or open that works fails only for a missing name. */
  lemma FetchFails(umask: nat -> nat, s: FS, id: nat, ok: bool)
    requires Inv(umask, s) && id in s.tasks && (s.tasks[id].FetchStat? || s.tasks[id].FetchOpen?)
    ensures var s' := FetchCall(s, id, ok, 0);
            id in s'.tasks && (ok && s'.tasks[id].Failed? ==> MissingSince(s'.hist, s.tasks[id].path, s.tasks[id].from))
  {
    var call := s.tasks[id];
    assert TaskOk(umask, s, id, call) && HeldOk(s.published, s.hist, call.path);
    var f := Now(s.hist, call.path);
    if f.Some? { assert Complete(s, f.value); } else { assert Hist(s.hist, call.path)[|Hist(s.hist, call.path)| - 1] == None; }
  }

  lemma LinkMoves(s: FS, id: nat, ok: bool)
    requires id in s.tasks && InLink(s.tasks[id])
    ensures id in LinkCall(s, id, ok).tasks
    ensures var was, phase := s.tasks[id], LinkCall(s, id, ok).tasks[id];
            || phase.Failed? || (phase.Done? && ok && was == LastStep(was))
            || (InLink(phase) && LastStep(phase) == LastStep(was) && StepsLeft(phase) < StepsLeft(was))
  {
  }

  /** The call a task is on its way to. */
  function LastStep(p: Phase): Phase
    requires InLink(p)
  {
    if p.MoveStat? || p.MoveStatTo? then Move(p.path, p.dst) else if p.DropStat? then Drop(p.path) else p
  }

  function StepsLeft(p: Phase): nat {
    match p
    case MoveStat(_, _) => 3
    case MoveStatTo(_, _) => 2
    case Move(_, _) => 1
    case DropStat(_) => 2
    case Drop(_) => 1
    case _ => 0
  }

  /** How a fetch that succeeds leaves its task. */
  predicate Ends(call: Phase, end: Phase)
    requires InFetch(call)
  {
    match call.purpose
    case ToReturn => end.Got? && end.path == call.path && end.from == call.from
    case ToCopy(dst) => end.PutStat? && end.path == dst
  }

  /** The write goes on with what it was asked to write. */
  predicate Carries(call: Phase, put: Put)
    requires call.PutOpen?
  {
    put.path == call.path && put.content == call.content && put.mode == call.mode && put.found == call.found
  }

  /** A version of `path` from position `from` of its history on has exactly this content. */
  ghost predicate HeldSince(s: FS, path: Path, from: nat, content: Bytes) {
    exists at :: Version(s, path, from, at) && content == Opened(s.files, s.hist, path, at)
  }

  lemma HeldLater(s: FS, s': FS, path: Path, from: nat, content: Bytes)
    requires HeldSince(s, path, from, content) && Later(s, s')
    ensures HeldSince(s', path, from, content)
  {
    var at :| Version(s, path, from, at) && content == Opened(s.files, s.hist, path, at);
    VersionLater(s, s', path, from, at);
  }

  lemma VersionLater(s: FS, s': FS, path: Path, from: nat, at: nat)
    requires Version(s, path, from, at) && Later(s, s')
    ensures Version(s', path, from, at) && Opened(s'.files, s'.hist, path, at) == Opened(s.files, s.hist, path, at)
  {
    assert Hist(s.hist, path) <= Hist(s'.hist, path);
    assert Hist(s'.hist, path)[at] == Hist(s.hist, path)[at];
    assert Unmodified(s, s', Hist(s.hist, path)[at].value);
  }

  lemma HeldSooner(s: FS, path: Path, from: nat, since: nat, content: Bytes)
    requires HeldSince(s, path, since, content) && from <= since
    ensures HeldSince(s, path, from, content)
  {
    var at :| Version(s, path, since, at) && content == Opened(s.files, s.hist, path, at);
    assert Version(s, path, from, at);
  }

  lemma LaterSelf(umask: nat -> nat, s: FS)
    requires Inv(umask, s)
    ensures Later(s, s)
  {
    forall f | f in s.published ensures Unmodified(s, s, f) { assert Complete(s, f); }
  }

  /** What a task in the middle of a read or a write finds unchanged when it goes on. */
  ghost predicate Untouched(umask: nat -> nat, s: FS, s': FS, id: nat) {
    && id in s.tasks && id in s'.tasks && s'.tasks[id] == s.tasks[id]
    && TaskOk(umask, s', id, s'.tasks[id]) && Left(s, id) == Left(s', id)
  }

  /** How many more steps of reading or writing there can be. */
  function Left(s: FS, id: nat): nat
    requires id in s.tasks
  {
    match s.tasks[id]
    case Fetching(path, _, _, _, at, got) =>
      var data := Opened(s.files, s.hist, path, at);
      if |got| < |data| then 1 + |data| - |got| else 1
    case Writing(p) =>
      if p.file in s.files && |s.files[p.file].data| < |p.content| then 1 + |p.content| - |s.files[p.file].data| else 1
    case _ => 0
  }

  lemma OtherStep(umask: nat -> nat, start: FS, before: FS, s: FS, a: Act, id: nat)
    requires Inv(umask, s) && Can(s, a) && a.id != id && Later(start, s) && Untouched(umask, before, s, id)
    ensures Inv(umask, Step(umask, s, a)) && Later(start, Step(umask, s, a))
    ensures Untouched(umask, before, Step(umask, s, a), id)
  {
    var s' := Step(umask, s, a);
    StepSound(umask, s, a);
    SoundKeeps(umask, s, s', a.id);
    TameLater(umask, s, s', a.id);
    LaterTransitive(start, s, s');
    assert s'.tasks[id] == s.tasks[id];
    TaskStays(umask, s, s', a.id, id, s.tasks[id]);
    LeftStays(umask, s, s', a.id, id);
  }

  lemma StepSound(umask: nat -> nat, s: FS, a: Act)
    requires Inv(umask, s) && Can(s, a)
    ensures Sound(umask, s, Step(umask, s, a), a.id)
  {
    match a
    case Begin(id, call) => BeginSound(umask, s, id, call);
    case Go(id, ok, n) => CallSound(umask, s, id, ok, n);
  }

  lemma LeftStays(umask: nat -> nat, s: FS, s': FS, other: nat, id: nat)
    requires Inv(umask, s) && Tame(s, s', other) && other != id && id in s.tasks && id in s'.tasks
    requires s'.tasks[id] == s.tasks[id]
    ensures Left(s', id) == Left(s, id)
  {
    var phase := s.tasks[id];
    assert TaskOk(umask, s, id, phase);
    if phase.Fetching? { VersionStays(s, s', other, phase.path, phase.from, phase.at); }
    if phase.Writing? { MineStays(s, s', other, id, phase.put); }
  }

  /** One call of the task itself. */
  lemma Advance(umask: nat -> nat, start: FS, s: FS, s': FS, id: nat, ok: bool, n: nat)
    requires Inv(umask, s) && Later(start, s) && id in s.tasks && s' == Call(umask, s, id, ok, n)
    ensures Inv(umask, s') && Later(start, s') && id in s'.tasks && TaskOk(umask, s', id, s'.tasks[id])
  {
    CallSound(umask, s, id, ok, n);
    SoundKeeps(umask, s, s', id);
    TameLater(umask, s, s', id);
    LaterTransitive(start, s, s');
  }

  /** A read from `open` on: it is still under way, or has failed, or has all of its version. */
  ghost predicate ReadingOn(open: FS, s: FS, id: nat) {
    && id in open.tasks && id in s.tasks && open.tasks[id].Fetching?
    && var o, now := open.tasks[id], s.tasks[id];
       if now.Fetching? then now == o.(got := now.got)
       else now.Failed? || (Ends(o, now) && HeldSince(s, o.path, o.from, now.content))
  }

  lemma ReadOnce(umask: nat -> nat, open: FS, s: FS, s': FS, id: nat, ok: bool, n: nat)
    requires ReadingOn(open, s, id) && s.tasks[id].Fetching? && TaskOk(umask, s, id, s.tasks[id])
    requires s' == FetchCall(s, id, ok, n)
    ensures ReadingOn(open, s', id) && Left(s', id) < Left(s, id) && (ok ==> !s'.tasks[id].Failed?)
  {
    var now := s.tasks[id];
    var data := Opened(s.files, s.hist, now.path, now.at);
    if ok && |now.got| < |data| {
      PieceIsNext(data, now.got, n);
    } else if ok {
      assert now.got == data;
      assert Version(s', now.path, now.from, now.at) && Opened(s'.files, s'.hist, now.path, now.at) == data;
    }
  }

  /** Since `start` the path has held exactly the content to write. */
  ghost predicate PutHeld(start: FS, s: FS, put: Put) {
    HeldSince(s, put.path, |Hist(start.hist, put.path)|, put.content)
  }

  lemma PlacedIsHeld(umask: nat -> nat, start: FS, s: FS, s': FS, id: nat)
    requires Inv(umask, s) && Later(start, s) && id in s.tasks && s.tasks[id].Placing?
    requires s' == PutCall(s, id, true, 0)
    ensures PutHeld(start, s', s.tasks[id].put)
  {
    var put := s.tasks[id].put;
    assert TaskOk(umask, s, id, s.tasks[id]);
    assert Hist(start.hist, put.path) <= Hist(s.hist, put.path);
    var at := |Hist(s.hist, put.path)|;
    assert Hist(s'.hist, put.path) == Hist(s.hist, put.path) + [Some(put.file)];
    assert Version(s', put.path, |Hist(start.hist, put.path)|, at);
    assert Opened(s'.files, s'.hist, put.path, at) == put.content;
  }

  lemma {:induction false} SomeNameIsFree(taken: set<nat>)
    ensures exists n: nat :: n !in taken && forall m | m in taken :: m < n
    decreases |taken|
  {
    if taken == {} {
      assert 0 !in taken;
    } else {
      var x :| x in taken;
      SomeNameIsFree(taken - {x});
      var n: nat :| n !in taken - {x} && forall m | m in taken - {x} :: m < n;
      var above := if x < n then n else x + 1;
      assert above !in taken && forall m | m in taken :: m < above by {
        forall m | m in taken ensures m < above { if m != x { assert m in taken - {x}; } }
      }
    }
  }
}
