/** The local filesystem driver's reads, writes, copies, renames and deletes (modules/filesystem/local.py), one
    system call at a time and in any interleaving. */
module AtomicFiles {
  import opened Texts
  import opened Wrappers

  type Path = string

  /** What an inode holds, what of it would survive a crash, and its permission bits. */
  datatype File = File(data: Bytes, synced: Bytes, mode: nat)

  /** What a fetched content is for: `read` returns it, `copy` puts it elsewhere. */
  datatype Purpose = ToReturn | ToCopy(dst: Path)

  /** A write under way: `found` is the mode of the file its stat found, `tmp` and `file` its temporary. */
  datatype Put = Put(path: Path, content: Bytes, mode: nat, found: Option<nat>, tmp: nat, file: nat)

  /** Where a call is: the system call it makes next, or how it ended. `from` is how far the path's history
      reached when the call began, `at` which version of it was opened. */
  datatype Phase =
    | FetchStat(path: Path, from: nat, purpose: Purpose)
    | FetchOpen(path: Path, from: nat, purpose: Purpose, mode: nat)
    | Fetching(path: Path, from: nat, purpose: Purpose, mode: nat, at: nat, got: Bytes)
    | Got(path: Path, from: nat, at: nat, content: Bytes)
    | PutStat(path: Path, content: Bytes, mode: nat)
    | PutOpen(path: Path, content: Bytes, mode: nat, found: Option<nat>)
    | Writing(put: Put)
    | Syncing(put: Put)
    | Moding(put: Put)
    | Placing(put: Put)
    | Cleaning(put: Put)
    | MoveStat(path: Path, dst: Path)
    | MoveStatTo(path: Path, dst: Path)
    | Move(path: Path, dst: Path)
    | DropStat(path: Path)
    | Drop(path: Path)
    | Done
    | Failed

  type Files = map<nat, File>
  type History = map<Path, seq<Option<nat>>>

  /** `hist` holds, for each non-temporary name, every inode it has ever held, the current one last. `temps` are
      the temporary names, `next` an inode number not yet used. `owner`, `published` and `offered` record who
      created an inode, which inodes have been under a non-temporary name, and which contents writers have supplied;
      no call reads them. */
  datatype FS = FS(
    files: Files,
    hist: History,
    temps: map<nat, nat>,
    next: nat,
    tasks: map<nat, Phase>,
    owner: map<nat, nat>,
    published: set<nat>,
    offered: set<Bytes>)

  datatype Act = Begin(id: nat, call: Phase) | Go(id: nat, ok: bool, n: nat)

  function Hist(hist: History, p: Path): (h: seq<Option<nat>>)
    ensures |h| > 0
  {
    if p in hist && |hist[p]| > 0 then hist[p] else [None]
  }

  /** The inode a name holds now. */
  function Now(hist: History, p: Path): Option<nat> {
    Hist(hist, p)[|Hist(hist, p)| - 1]
  }

  function Link(hist: History, p: Path, f: Option<nat>): History {
    hist[p := Hist(hist, p) + [f]]
  }

  /** `os.rename` between names: nothing happens when both are the same file (rename() of POSIX.1-2017). */
  function Renamed(hist: History, src: Path, dst: Path): History {
    if Now(hist, src) == Now(hist, dst) then hist else Link(Link(hist, dst, Now(hist, src)), src, None)
  }

  predicate IsCall(hist: History, call: Phase) {
    match call
    case FetchStat(path, from, purpose) =>
      from == |Hist(hist, path)| - 1 && (purpose.ToCopy? ==> purpose.dst != path)
    case PutStat(_, _, _) => true
    case MoveStat(_, _) => true
    case DropStat(_) => true
    case _ => false
  }

  predicate Over(p: Phase) {
    p.Done? || p.Failed? || p.Got?
  }

  predicate Can(s: FS, a: Act) {
    match a
    case Begin(id, call) => id !in s.tasks && IsCall(s.hist, call)
    case Go(id, _, _) => id in s.tasks && !Over(s.tasks[id])
  }

  function Min(a: nat, b: nat): nat {
    if a <= b then a else b
  }

  /** The next piece of `whole` after the `done` bytes there are: at least one byte, at most all. */
  function Piece(whole: Bytes, done: nat, n: nat): Bytes
    requires done <= |whole|
  {
    whole[done..done + Min(n + 1, |whole| - done)]
  }

  predicate InFetch(p: Phase) {
    p.FetchStat? || p.FetchOpen? || p.Fetching?
  }

  predicate InStart(p: Phase) {
    p.PutStat? || p.PutOpen?
  }

  predicate InPut(p: Phase) {
    p.Writing? || p.Syncing? || p.Moding? || p.Placing? || p.Cleaning?
  }

  predicate InLink(p: Phase) {
    p.MoveStat? || p.MoveStatTo? || p.Move? || p.DropStat? || p.Drop?
  }

  /** `read`, and the first half of `copy`. */
  function FetchCall(s: FS, id: nat, ok: bool, n: nat): FS
    requires id in s.tasks && InFetch(s.tasks[id])
  {
    match s.tasks[id]
    case FetchStat(path, from, purpose) =>
      var f := Now(s.hist, path);
      if !ok || f.None? || f.value !in s.files then To(s, id, Failed)
      else To(s, id, FetchOpen(path, from, purpose, s.files[f.value].mode))
    case FetchOpen(path, from, purpose, mode) =>
      if !ok || Now(s.hist, path).None? then To(s, id, Failed)
      else To(s, id, Fetching(path, from, purpose, mode, |Hist(s.hist, path)| - 1, []))
    case Fetching(path, from, purpose, mode, at, got) =>
      var data := Opened(s.files, s.hist, path, at);
      if !ok then To(s, id, Failed)
      else if |got| < |data| then To(s, id, Fetching(path, from, purpose, mode, at, got + Piece(data, |got|, n)))
      else if purpose.ToReturn? then To(s, id, Got(path, from, at, got))
      else To(s, id, PutStat(purpose.dst, got, mode))
  }

  /** `_replace` up to its temporary file; `umask` says what the umask leaves of a mode. */
  function StartCall(umask: nat -> nat, s: FS, id: nat, ok: bool, n: nat): FS
    requires id in s.tasks && InStart(s.tasks[id])
  {
    match s.tasks[id]
    case PutStat(path, content, mode) =>
      var f := Now(s.hist, path);
      if !ok then To(s, id, Failed)
      else To(s, id, PutOpen(path, content, mode,
                             if f.Some? && f.value in s.files then Some(s.files[f.value].mode) else None))
    case PutOpen(path, content, mode, found) =>
      if !ok then To(s, id, Failed)
      else if n in s.temps then s
      else To(s.(files := s.files[s.next := File([], [], umask(if found.None? then mode else PRIVATE))],
                 temps := s.temps[n := s.next], owner := s.owner[s.next := id], next := s.next + 1),
              id, Writing(Put(path, content, mode, found, n, s.next)))
  }

  /** The rest of `_replace`: from the temporary file to the rename, or to its removal. */
  function PutCall(s: FS, id: nat, ok: bool, n: nat): FS
    requires id in s.tasks && InPut(s.tasks[id])
  {
    match s.tasks[id]
    case Writing(put) =>
      if !ok || put.file !in s.files then To(s, id, Cleaning(put))
      else
        var file := s.files[put.file];
        if |file.data| < |put.content| then
          s.(files := s.files[put.file := file.(data := file.data + Piece(put.content, |file.data|, n))])
        else To(s, id, Syncing(put))
    case Syncing(put) =>
      if !ok || put.file !in s.files then To(s, id, Cleaning(put))
      else
        var file := s.files[put.file];
        To(s.(files := s.files[put.file := file.(synced := file.data)]), id,
           if put.found.Some? then Moding(put) else Placing(put))
    case Moding(put) =>
      if !ok || put.file !in s.files || put.found.None? then To(s, id, Cleaning(put))
      else To(s.(files := s.files[put.file := s.files[put.file].(mode := put.found.value)]), id, Placing(put))
    case Placing(put) =>
      if !ok then To(s, id, Cleaning(put))
      else To(s.(hist := Link(s.hist, put.path, Some(put.file)), temps := s.temps - {put.tmp},
                 published := s.published + {put.file}), id, Done)
    case Cleaning(put) =>
      To(if ok then s.(temps := s.temps - {put.tmp}) else s, id, Failed)
  }

  /** Where a `rename` or `delete` stands after one more call. */
  function LinkNext(hist: History, phase: Phase, ok: bool): Phase
    requires InLink(phase)
  {
    if !ok || (!phase.MoveStatTo? && Now(hist, phase.path).None?) then Failed
    else match phase
      case MoveStat(path, dst) => MoveStatTo(path, dst)
      case MoveStatTo(path, dst) => Move(path, dst)
      case Move(_, _) => Done
      case DropStat(path) => Drop(path)
      case Drop(_) => Done
  }

  /** What the last call of one does to the names. */
  function Relinked(hist: History, phase: Phase): History
    requires InLink(phase)
  {
    if phase.Move? then Renamed(hist, phase.path, phase.dst) else Link(hist, phase.path, None)
  }

  /** `rename` and `delete`. */
  function LinkCall(s: FS, id: nat, ok: bool): FS
    requires id in s.tasks && InLink(s.tasks[id])
  {
    var phase := LinkNext(s.hist, s.tasks[id], ok);
    To(if phase.Done? then s.(hist := Relinked(s.hist, s.tasks[id])) else s, id, phase)
  }

  /** One system call of one task: the whole new state. */
  function Call(umask: nat -> nat, s: FS, id: nat, ok: bool, n: nat): FS
    requires id in s.tasks
  {
    if InFetch(s.tasks[id]) then FetchCall(s, id, ok, n)
    else if InStart(s.tasks[id]) then StartCall(umask, s, id, ok, n)
    else if InPut(s.tasks[id]) then PutCall(s, id, ok, n)
    else if InLink(s.tasks[id]) then LinkCall(s, id, ok)
    else s
  }

  const PRIVATE := 0x180

  function To(s: FS, id: nat, phase: Phase): FS {
    s.(tasks := s.tasks[id := phase])
  }

  /** What there is to read now of the version a task has opened. */
  function Opened(files: Files, hist: History, path: Path, at: nat): Bytes {
    if at < |Hist(hist, path)| && Hist(hist, path)[at].Some? && Hist(hist, path)[at].value in files
    then files[Hist(hist, path)[at].value].data
    else []
  }

  function Step(umask: nat -> nat, s: FS, a: Act): FS
    requires Can(s, a)
  {
    match a
    case Begin(id, call) =>
      To(if call.PutStat? then s.(offered := s.offered + {call.content}) else s, id, call)
    case Go(id, ok, n) => Call(umask, s, id, ok, n)
  }

  predicate Enabled(umask: nat -> nat, s: FS, acts: seq<Act>)
    decreases |acts|
  {
    |acts| > 0 ==> Can(s, acts[0]) && Enabled(umask, Step(umask, s, acts[0]), acts[1..])
  }

  function After(umask: nat -> nat, s: FS, acts: seq<Act>): FS
    requires Enabled(umask, s, acts)
    decreases |acts|
  {
    if |acts| == 0 then s else After(umask, Step(umask, s, acts[0]), acts[1..])
  }

  // ---- What every call relies on ---------------------------------------------------------------------

  predicate OwnedBy(owner: map<nat, nat>, f: nat, id: nat) {
    f in owner && owner[f] == id
  }

  /** A writer's temporary: under its temporary name, its own, and seen under no other name. */
  predicate Mine(s: FS, id: nat, p: Put) {
    && p.file in s.files && OwnedBy(s.owner, p.file, id) && p.file !in s.published
    && p.tmp in s.temps && s.temps[p.tmp] == p.file && p.content in s.offered
  }

  predicate Whole(s: FS, p: Put) {
    p.file in s.files && s.files[p.file].data == p.content == s.files[p.file].synced
  }

  /** The bits a placed file has: those of the file found there, or the given ones as the umask leaves them. */
  predicate RightMode(umask: nat -> nat, s: FS, p: Put) {
    p.file in s.files && s.files[p.file].mode == if p.found.Some? then p.found.value else umask(p.mode)
  }

  predicate Version(s: FS, path: Path, from: nat, at: nat) {
    from <= at < |Hist(s.hist, path)| && Hist(s.hist, path)[at].Some? &&
    Hist(s.hist, path)[at].value in s.published && Hist(s.hist, path)[at].value in s.files
  }

  predicate TaskOk(umask: nat -> nat, s: FS, id: nat, phase: Phase) {
    match phase
    case FetchStat(path, from, _) => from < |Hist(s.hist, path)|
    case FetchOpen(path, from, _, _) => from < |Hist(s.hist, path)|
    case Fetching(path, from, _, _, at, got) => Version(s, path, from, at) && got <= Opened(s.files, s.hist, path, at)
    case Got(path, from, at, content) => Version(s, path, from, at) && content == Opened(s.files, s.hist, path, at)
    case PutStat(_, content, _) => content in s.offered
    case PutOpen(_, content, _, _) => content in s.offered
    case Writing(p) => Mine(s, id, p) && s.files[p.file].data <= p.content && (p.found.None? ==> RightMode(umask, s, p))
    case Syncing(p) => Mine(s, id, p) && s.files[p.file].data == p.content && (p.found.None? ==> RightMode(umask, s, p))
    case Moding(p) => Mine(s, id, p) && Whole(s, p) && p.found.Some?
    case Placing(p) => Mine(s, id, p) && Whole(s, p) && RightMode(umask, s, p)
    case Cleaning(p) => p.file !in s.published && p.tmp in s.temps && s.temps[p.tmp] == p.file && OwnedBy(s.owner, p.file, id)
    case _ => true
  }

  /** A version some name has held: whole, on disk, and what a writer supplied. */
  predicate Complete(s: FS, f: nat) {
    f in s.files && s.files[f].data == s.files[f].synced && s.files[f].data in s.offered
  }

  predicate HeldOk(published: set<nat>, hist: History, p: Path) {
    p in hist ==> forall k | 0 <= k < |hist[p]| :: hist[p][k].Some? ==> hist[p][k].value in published
  }

  predicate Fresh(s: FS) {
    && (forall f | f in s.files :: f < s.next) && s.owner.Keys <= s.files.Keys && s.published <= s.files.Keys
    && forall t | t in s.temps :: s.temps[t] in s.owner
  }

  ghost predicate Inv(umask: nat -> nat, s: FS) {
    && Fresh(s)
    && (forall f {:trigger Complete(s, f)} | f in s.published :: Complete(s, f))
    && (forall p {:trigger HeldOk(s.published, s.hist, p)} :: HeldOk(s.published, s.hist, p))
    && forall id {:trigger TaskOk(umask, s, id, s.tasks[id])} | id in s.tasks :: TaskOk(umask, s, id, s.tasks[id])
  }

  // ---- What every call leaves alone ------------------------------------------------------------------

  /** `id` touched no inode but its own unpublished ones, and no temporary name but its own. */
  predicate FilesKept(s: FS, s': FS, id: nat, f: nat) {
    f in s.files && (f in s.published || !OwnedBy(s.owner, f, id)) ==> f in s'.files && s'.files[f] == s.files[f]
  }

  predicate TempsKept(s: FS, s': FS, id: nat, t: nat) {
    t in s.temps && !OwnedBy(s.owner, s.temps[t], id) ==> t in s'.temps && s'.temps[t] == s.temps[t]
  }

  predicate OwnerKept(s: FS, s': FS, f: nat) {
    f in s.owner ==> f in s'.owner && s'.owner[f] == s.owner[f]
  }

  predicate PublishedKept(s: FS, s': FS, id: nat, f: nat) {
    f in s'.published && f !in s.published ==> OwnedBy(s'.owner, f, id)
  }

  ghost predicate Tame(s: FS, s': FS, id: nat) {
    && (forall f {:trigger FilesKept(s, s', id, f)} :: FilesKept(s, s', id, f))
    && (forall t {:trigger TempsKept(s, s', id, t)} :: TempsKept(s, s', id, t))
    && (forall f {:trigger OwnerKept(s, s', f)} :: OwnerKept(s, s', f))
    && (forall p {:trigger Hist(s'.hist, p)} :: Hist(s.hist, p) <= Hist(s'.hist, p))
    && s.offered <= s'.offered && s.published <= s'.published && s.next <= s'.next
    && forall f {:trigger PublishedKept(s, s', id, f)} :: PublishedKept(s, s', id, f)
  }
}
