/** Every system call keeps what the others rely on, over any run. */
module AtomicFilesSteps {
  import opened Texts
  import opened Wrappers
  import opened AtomicFiles

  lemma TaskStays(umask: nat -> nat, s: FS, s': FS, id: nat, other: nat, phase: Phase)
    requires Fresh(s) && Tame(s, s', id) && id != other && TaskOk(umask, s, other, phase)
    ensures TaskOk(umask, s', other, phase)
  {
    match phase
    case FetchStat(path, from, _) => assert Hist(s.hist, path) <= Hist(s'.hist, path);
    case FetchOpen(path, from, _, _) => assert Hist(s.hist, path) <= Hist(s'.hist, path);
    case Fetching(path, from, _, _, at, got) => VersionStays(s, s', id, path, from, at);
    case Got(path, from, at, _) => VersionStays(s, s', id, path, from, at);
    case Writing(p) => MineStays(s, s', id, other, p);
    case Syncing(p) => MineStays(s, s', id, other, p);
    case Moding(p) => MineStays(s, s', id, other, p);
    case Placing(p) => MineStays(s, s', id, other, p);
    case Cleaning(p) => assert TempsKept(s, s', id, p.tmp) && OwnerKept(s, s', p.file) && PublishedKept(s, s', id, p.file);
    case _ =>
  }

  lemma VersionStays(s: FS, s': FS, id: nat, path: Path, from: nat, at: nat)
    requires Tame(s, s', id) && Version(s, path, from, at)
    ensures Version(s', path, from, at) && Opened(s'.files, s'.hist, path, at) == Opened(s.files, s.hist, path, at)
  {
    assert Hist(s.hist, path) <= Hist(s'.hist, path);
    var f := Hist(s.hist, path)[at].value;
    assert Hist(s'.hist, path)[at] == Some(f);
    assert FilesKept(s, s', id, f);
  }

  lemma MineStays(s: FS, s': FS, id: nat, other: nat, p: Put)
    requires Tame(s, s', id) && id != other && Mine(s, other, p)
    ensures Mine(s', other, p) && s'.files[p.file] == s.files[p.file]
  {
    assert FilesKept(s, s', id, p.file) && TempsKept(s, s', id, p.tmp) && OwnerKept(s, s', p.file);
    assert PublishedKept(s, s', id, p.file);
  }

  /** The history only ever grows. */
  lemma LinkGrows(hist: History, p: Path, f: Option<nat>, q: Path)
    ensures Hist(hist, q) <= Hist(Link(hist, p, f), q)
  {
  }

  lemma RenamedGrows(hist: History, src: Path, dst: Path, q: Path)
    ensures Hist(hist, q) <= Hist(Renamed(hist, src, dst), q)
  {
    LinkGrows(hist, dst, Now(hist, src), q);
    LinkGrows(Link(hist, dst, Now(hist, src)), src, None, q);
  }

  /** A step that changes nothing but where its own task is. */
  lemma QuietTame(s: FS, s': FS, id: nat)
    requires s'.(tasks := s.tasks, offered := s.offered) == s && s.offered <= s'.offered
    ensures Tame(s, s', id)
  {
  }

  /** A step of a writer on its own temporary. */
  lemma OwnFileTame(s: FS, s': FS, id: nat, f: nat, file: File)
    requires f in s.files && OwnedBy(s.owner, f, id) && f !in s.published
    requires s'.(tasks := s.tasks, files := s.files) == s && s'.files == s.files[f := file]
    ensures Tame(s, s', id)
  {
  }

  lemma OpenTame(umask: nat -> nat, s: FS, s': FS, id: nat, t: nat, file: File)
    requires Fresh(s) && t !in s.temps
    requires s' == s.(files := s.files[s.next := file], temps := s.temps[t := s.next],
                      owner := s.owner[s.next := id], next := s.next + 1, tasks := s'.tasks)
    ensures Tame(s, s', id)
  {
  }

  lemma PlaceTame(s: FS, s': FS, id: nat, p: Put)
    requires Mine(s, id, p)
    requires s' == s.(hist := Link(s.hist, p.path, Some(p.file)), temps := s.temps - {p.tmp},
                      published := s.published + {p.file}, tasks := s'.tasks)
    ensures Tame(s, s', id)
  {
    forall q ensures Hist(s.hist, q) <= Hist(s'.hist, q) { LinkGrows(s.hist, p.path, Some(p.file), q); }
  }

  lemma CleanTame(s: FS, s': FS, id: nat, p: Put)
    requires p.tmp in s.temps && s.temps[p.tmp] == p.file && OwnedBy(s.owner, p.file, id)
    requires s' == s.(temps := s.temps - {p.tmp}, tasks := s'.tasks)
    ensures Tame(s, s', id)
  {
  }

  lemma LinkTame(s: FS, s': FS, id: nat)
    requires s' == s.(hist := s'.hist, tasks := s'.tasks)
    requires forall q {:trigger Hist(s'.hist, q)} :: Hist(s.hist, q) <= Hist(s'.hist, q)
    ensures Tame(s, s', id)
  {
  }

  // ---- Fetching ----------------------------------------------------------------------------------------

  /** What one call of a group must show: the others are left alone, its own task is sound, and what names hold
      stays complete. */
  ghost predicate Sound(umask: nat -> nat, s: FS, s': FS, id: nat) {
    && Tame(s, s', id) && Fresh(s') && id in s'.tasks && s'.tasks == s.tasks[id := s'.tasks[id]]
    && TaskOk(umask, s', id, s'.tasks[id])
    && (forall f {:trigger Complete(s', f)} | f in s'.published :: f in s.published || Complete(s', f))
    && (forall p {:trigger HeldOk(s'.published, s'.hist, p)} :: HeldOk(s'.published, s'.hist, p))
  }

  /** Reading on from a prefix gives a longer prefix. */
  lemma PieceIsNext(whole: Bytes, got: Bytes, n: nat)
    requires got <= whole && |got| < |whole|
    ensures got + Piece(whole, |got|, n) <= whole && |got + Piece(whole, |got|, n)| > |got|
  {
  }

  lemma MovedOnly(umask: nat -> nat, s: FS, id: nat, phase: Phase)
    requires Inv(umask, s) && TaskOk(umask, s, id, phase)
    ensures Sound(umask, s, To(s, id, phase), id)
  {
    var s' := To(s, id, phase);
    QuietTame(s, s', id);
    forall p ensures HeldOk(s'.published, s'.hist, p) { assert HeldOk(s.published, s.hist, p); }
    TaskElsewhere(umask, s, s', id, phase);
  }

  /** Where tasks are does not matter to what a task relies on. */
  lemma TaskElsewhere(umask: nat -> nat, s: FS, s': FS, id: nat, phase: Phase)
    requires s' == s.(tasks := s'.tasks) && TaskOk(umask, s, id, phase)
    ensures TaskOk(umask, s', id, phase)
  {
  }

  lemma FetchKeeps(umask: nat -> nat, s: FS, id: nat, ok: bool, n: nat)
    requires Inv(umask, s) && id in s.tasks && InFetch(s.tasks[id])
    ensures Sound(umask, s, FetchCall(s, id, ok, n), id)
  {
    var s' := FetchCall(s, id, ok, n);
    FetchOk(umask, s, id, ok, n);
    MovedOnly(umask, s, id, s'.tasks[id]);
  }

  lemma FetchOk(umask: nat -> nat, s: FS, id: nat, ok: bool, n: nat)
    requires Inv(umask, s) && id in s.tasks && InFetch(s.tasks[id])
    ensures var s' := FetchCall(s, id, ok, n);
            id in s'.tasks && TaskOk(umask, s, id, s'.tasks[id]) && s' == To(s, id, s'.tasks[id])
  {
    var phase := s.tasks[id];
    assert TaskOk(umask, s, id, phase);
    assert HeldOk(s.published, s.hist, phase.path);
    if phase.Fetching? {
      var f := Hist(s.hist, phase.path)[phase.at].value;
      assert Complete(s, f);
      var data := Opened(s.files, s.hist, phase.path, phase.at);
      if ok && |phase.got| < |data| {
        PieceIsNext(data, phase.got, n);
      } else {
        assert |phase.got| == |data| ==> phase.got == data;
      }
    }
  }

  // ---- Writing -----------------------------------------------------------------------------------------

  lemma StartKeeps(umask: nat -> nat, s: FS, id: nat, ok: bool, n: nat)
    requires Inv(umask, s) && id in s.tasks && InStart(s.tasks[id])
    ensures Sound(umask, s, StartCall(umask, s, id, ok, n), id)
  {
    var s', phase := StartCall(umask, s, id, ok, n), s.tasks[id];
    assert TaskOk(umask, s, id, phase);
    if phase.PutOpen? && ok && n !in s.temps {
      OpenTame(umask, s, s', id, n, s'.files[s.next]);
      forall p ensures HeldOk(s'.published, s'.hist, p) { assert HeldOk(s.published, s.hist, p); }
    } else {
      assert s' == To(s, id, s'.tasks[id]);
      MovedOnly(umask, s, id, s'.tasks[id]);
    }
  }

  /** A writer fills, syncs and sets the mode of its own temporary. */
  lemma FillKeeps(umask: nat -> nat, s: FS, id: nat, n: nat)
    requires Inv(umask, s) && id in s.tasks
    requires s.tasks[id].Writing? || s.tasks[id].Syncing? || s.tasks[id].Moding?
    ensures Sound(umask, s, PutCall(s, id, true, n), id)
  {
    var s', phase := PutCall(s, id, true, n), s.tasks[id];
    assert TaskOk(umask, s, id, phase);
    var p := phase.put;
    if phase.Writing? && |s.files[p.file].data| < |p.content| { PieceIsNext(p.content, s.files[p.file].data, n); }
    assert s'.files == s.files[p.file := s'.files[p.file]];
    OwnFileTame(s, s', id, p.file, s'.files[p.file]);
    forall q ensures HeldOk(s'.published, s'.hist, q) { assert HeldOk(s.published, s.hist, q); }
  }

  lemma PlaceKeeps(umask: nat -> nat, s: FS, id: nat, n: nat)
    requires Inv(umask, s) && id in s.tasks && s.tasks[id].Placing?
    ensures Sound(umask, s, PutCall(s, id, true, n), id)
  {
    var s', p := PutCall(s, id, true, n), s.tasks[id].put;
    assert TaskOk(umask, s, id, s.tasks[id]);
    PlaceTame(s, s', id, p);
    forall q ensures HeldOk(s'.published, s'.hist, q) {
      assert HeldOk(s.published, s.hist, p.path) && HeldOk(s.published, s.hist, q);
      LinkHolds(s'.published, s.hist, p.path, Some(p.file), q);
    }
  }

  lemma CleanKeeps(umask: nat -> nat, s: FS, id: nat, n: nat)
    requires Inv(umask, s) && id in s.tasks && s.tasks[id].Cleaning?
    ensures Sound(umask, s, PutCall(s, id, true, n), id)
  {
    var s', p := PutCall(s, id, true, n), s.tasks[id].put;
    assert TaskOk(umask, s, id, s.tasks[id]);
    CleanTame(s, s', id, p);
    forall q ensures HeldOk(s'.published, s'.hist, q) { assert HeldOk(s.published, s.hist, q); }
  }

  lemma PutKeeps(umask: nat -> nat, s: FS, id: nat, ok: bool, n: nat)
    requires Inv(umask, s) && id in s.tasks && InPut(s.tasks[id])
    ensures Sound(umask, s, PutCall(s, id, ok, n), id)
  {
    assert TaskOk(umask, s, id, s.tasks[id]);
    if !ok {
      var s' := PutCall(s, id, ok, n);
      MovedOnly(umask, s, id, s'.tasks[id]);
    } else if s.tasks[id].Placing? {
      PlaceKeeps(umask, s, id, n);
    } else if s.tasks[id].Cleaning? {
      CleanKeeps(umask, s, id, n);
    } else {
      FillKeeps(umask, s, id, n);
    }
  }

  // ---- Renaming and deleting -----------------------------------------------------------------------------

  lemma LinkHolds(published: set<nat>, hist: History, p: Path, f: Option<nat>, q: Path)
    requires HeldOk(published, hist, p) && HeldOk(published, hist, q) && (f.Some? ==> f.value in published)
    ensures HeldOk(published, Link(hist, p, f), q)
  {
  }

  lemma RenamedHolds(published: set<nat>, hist: History, src: Path, dst: Path, q: Path)
    requires HeldOk(published, hist, src) && HeldOk(published, hist, dst) && HeldOk(published, hist, q)
    ensures HeldOk(published, Renamed(hist, src, dst), q)
  {
    var linked := Link(hist, dst, Now(hist, src));
    LinkHolds(published, hist, dst, Now(hist, src), src);
    LinkHolds(published, hist, dst, Now(hist, src), q);
    LinkHolds(published, linked, src, None, q);
  }

  lemma LinkKeeps(umask: nat -> nat, s: FS, id: nat, ok: bool)
    requires Inv(umask, s) && id in s.tasks && InLink(s.tasks[id])
    ensures Sound(umask, s, LinkCall(s, id, ok), id)
  {
    var s', phase := LinkCall(s, id, ok), s.tasks[id];
    if phase.Move? && ok && Now(s.hist, phase.path).Some? {
      forall q ensures Hist(s.hist, q) <= Hist(s'.hist, q) && HeldOk(s'.published, s'.hist, q) {
        RenamedGrows(s.hist, phase.path, phase.dst, q);
        assert HeldOk(s.published, s.hist, phase.path) && HeldOk(s.published, s.hist, phase.dst);
        assert HeldOk(s.published, s.hist, q);
        RenamedHolds(s.published, s.hist, phase.path, phase.dst, q);
      }
      LinkTame(s, s', id);
    } else if phase.Drop? && ok && Now(s.hist, phase.path).Some? {
      forall q ensures Hist(s.hist, q) <= Hist(s'.hist, q) && HeldOk(s'.published, s'.hist, q) {
        LinkGrows(s.hist, phase.path, None, q);
        assert HeldOk(s.published, s.hist, phase.path) && HeldOk(s.published, s.hist, q);
        LinkHolds(s.published, s.hist, phase.path, None, q);
      }
      LinkTame(s, s', id);
    } else {
      LinkWaits(umask, s, id, ok);
    }
  }

  lemma LinkWaits(umask: nat -> nat, s: FS, id: nat, ok: bool)
    requires Inv(umask, s) && id in s.tasks && InLink(s.tasks[id])
    requires !ok || Now(s.hist, s.tasks[id].path).None? || (!s.tasks[id].Move? && !s.tasks[id].Drop?)
    ensures Sound(umask, s, LinkCall(s, id, ok), id)
  {
    var s' := LinkCall(s, id, ok);
    assert s' == To(s, id, s'.tasks[id]);
    MovedOnly(umask, s, id, s'.tasks[id]);
  }

  // ---- Any call ------------------------------------------------------------------------------------------

  lemma CallSound(umask: nat -> nat, s: FS, id: nat, ok: bool, n: nat)
    requires Inv(umask, s) && id in s.tasks
    ensures Sound(umask, s, Call(umask, s, id, ok, n), id)
  {
    var phase := s.tasks[id];
    if InFetch(phase) {
      FetchKeeps(umask, s, id, ok, n);
    } else if InStart(phase) {
      StartKeeps(umask, s, id, ok, n);
    } else if InPut(phase) {
      PutKeeps(umask, s, id, ok, n);
    } else if InLink(phase) {
      LinkKeeps(umask, s, id, ok);
    } else {
      assert TaskOk(umask, s, id, phase);
      MovedOnly(umask, s, id, phase);
      assert s == To(s, id, phase);
    }
  }

  lemma BeginSound(umask: nat -> nat, s: FS, id: nat, call: Phase)
    requires Inv(umask, s) && Can(s, Begin(id, call))
    ensures Sound(umask, s, Step(umask, s, Begin(id, call)), id)
  {
    var s' := Step(umask, s, Begin(id, call));
    QuietTame(s, s', id);
    forall p ensures HeldOk(s'.published, s'.hist, p) { assert HeldOk(s.published, s.hist, p); }
  }

  /** A sound call keeps everything. */
  lemma SoundKeeps(umask: nat -> nat, s: FS, s': FS, id: nat)
    requires Inv(umask, s) && Sound(umask, s, s', id)
    ensures Inv(umask, s')
  {
    forall f | f in s'.published ensures Complete(s', f) {
      if f in s.published { assert Complete(s, f) && FilesKept(s, s', id, f); }
    }
    forall other | other in s'.tasks ensures TaskOk(umask, s', other, s'.tasks[other]) {
      if other != id {
        assert TaskOk(umask, s, other, s.tasks[other]);
        TaskStays(umask, s, s', id, other, s.tasks[other]);
      }
    }
  }

  lemma StepKeeps(umask: nat -> nat, s: FS, a: Act)
    requires Inv(umask, s) && Can(s, a)
    ensures Inv(umask, Step(umask, s, a)) && Tame(s, Step(umask, s, a), a.id)
  {
    match a {
      case Begin(id, call) => BeginSound(umask, s, id, call);
      case Go(id, ok, n) => CallSound(umask, s, id, ok, n);
    }
    SoundKeeps(umask, s, Step(umask, s, a), a.id);
  }

  // ---- Whole runs ----------------------------------------------------------------------------------------

  /** From `s` on, what names hold is only added to, and no inode any name has held has changed. */
  ghost predicate Later(s: FS, s': FS) {
    && (forall p {:trigger Hist(s'.hist, p)} :: Hist(s.hist, p) <= Hist(s'.hist, p))
    && s.published <= s'.published && s.offered <= s'.offered
    && forall f {:trigger Unmodified(s, s', f)} | f in s.published :: Unmodified(s, s', f)
  }

  predicate Unmodified(s: FS, s': FS, f: nat) {
    f in s.files && f in s'.files && s'.files[f] == s.files[f]
  }

  lemma TameLater(umask: nat -> nat, s: FS, s': FS, id: nat)
    requires Inv(umask, s) && Tame(s, s', id)
    ensures Later(s, s')
  {
    forall f | f in s.published ensures Unmodified(s, s', f) { assert Complete(s, f) && FilesKept(s, s', id, f); }
  }

  lemma LaterTransitive(a: FS, b: FS, c: FS)
    requires Later(a, b) && Later(b, c)
    ensures Later(a, c)
  {
    forall p ensures Hist(a.hist, p) <= Hist(c.hist, p) {
      assert Hist(a.hist, p) <= Hist(b.hist, p) <= Hist(c.hist, p);
    }
    forall f | f in a.published ensures Unmodified(a, c, f) { assert Unmodified(a, b, f) && Unmodified(b, c, f); }
  }

  /** Over any run of any calls in any interleaving: no inode that a non-temporary name has ever held is modified. */
  lemma {:induction false} NeverModifiedInPlace(umask: nat -> nat, s: FS, acts: seq<Act>)
    requires Inv(umask, s) && Enabled(umask, s, acts)
    ensures Inv(umask, After(umask, s, acts)) && Later(s, After(umask, s, acts))
    decreases |acts|
  {
    if |acts| == 0 {
      forall f | f in s.published ensures Unmodified(s, s, f) { assert Complete(s, f); }
    } else {
      var next := Step(umask, s, acts[0]);
      StepKeeps(umask, s, acts[0]);
      TameLater(umask, s, next, acts[0].id);
      NeverModifiedInPlace(umask, next, acts[1..]);
      LaterTransitive(s, next, After(umask, s, acts));
    }
  }

  /** Before any call: whatever files there are, whole and on disk. */
  ghost predicate Start(s: FS) {
    && s.tasks == map[] && s.owner == map[] && s.temps == map[] && Fresh(s)
    && (forall f {:trigger Complete(s, f)} | f in s.published :: Complete(s, f))
    && forall p {:trigger HeldOk(s.published, s.hist, p)} :: HeldOk(s.published, s.hist, p)
  }

  /** Every read returns one complete version: all of what the name held at one moment during the read, exactly as
      a writer supplied it. */
  lemma ReadsAreWhole(umask: nat -> nat, s: FS, acts: seq<Act>, id: nat)
    requires Start(s) && Enabled(umask, s, acts)
    requires id in After(umask, s, acts).tasks && After(umask, s, acts).tasks[id].Got?
    ensures var s' := After(umask, s, acts); var read := s'.tasks[id];
            && read.from <= read.at < |Hist(s'.hist, read.path)|
            && Hist(s'.hist, read.path)[read.at].Some?
            && Complete(s', Hist(s'.hist, read.path)[read.at].value)
            && read.content == s'.files[Hist(s'.hist, read.path)[read.at].value].data
            && read.content in s'.offered
  {
    var s' := After(umask, s, acts);
    NeverModifiedInPlace(umask, s, acts);
    var read := s'.tasks[id];
    assert TaskOk(umask, s', id, read);
    assert Complete(s', Hist(s'.hist, read.path)[read.at].value);
  }

  /** What a crash leaves: of each inode what was synced, and under each name something it has held. */
  predicate Survives(s: FS, held: map<Path, nat>, disk: map<nat, Bytes>) {
    && (forall p | p in held :: Some(held[p]) in Hist(s.hist, p))
    && disk.Keys == s.files.Keys && forall f | f in disk :: disk[f] == s.files[f].synced
  }

  /** A crash at any step leaves every name holding, in full, a content a writer supplied, namely that of a file
      the name has held. */
  lemma CrashLeavesWholeFiles(umask: nat -> nat, s: FS, acts: seq<Act>, held: map<Path, nat>, disk: map<nat, Bytes>,
                              p: Path)
    requires Start(s) && Enabled(umask, s, acts) && Survives(After(umask, s, acts), held, disk) && p in held
    ensures held[p] in disk && disk[held[p]] == After(umask, s, acts).files[held[p]].data
    ensures disk[held[p]] in After(umask, s, acts).offered
  {
    var s' := After(umask, s, acts);
    NeverModifiedInPlace(umask, s, acts);
    assert HeldOk(s'.published, s'.hist, p);
    assert Complete(s', held[p]);
  }

  /** A write that is about to take effect has its whole content on disk under its temporary name, with the bits
      of the file it replaces; when it takes effect, that file is what the name holds, and nothing else changes. */
  lemma WriteTakesEffectWhole(umask: nat -> nat, s: FS, acts: seq<Act>, id: nat, n: nat)
    requires Start(s) && Enabled(umask, s, acts)
    requires id in After(umask, s, acts).tasks && After(umask, s, acts).tasks[id].Placing?
    ensures var s0 := After(umask, s, acts); var s1 := Call(umask, s0, id, true, n); var p := s0.tasks[id].put;
            && Now(s1.hist, p.path) == Some(p.file) && s1.files == s0.files
            && Whole(s1, p) && RightMode(umask, s1, p)
            && forall q | q != p.path :: Hist(s1.hist, q) == Hist(s0.hist, q)
  {
    var s0 := After(umask, s, acts);
    NeverModifiedInPlace(umask, s, acts);
    assert TaskOk(umask, s0, id, s0.tasks[id]);
  }

  /** A write that failed has put nothing under any name but its temporary one. */
  lemma FailedWriteIsUnseen(umask: nat -> nat, s: FS, acts: seq<Act>, id: nat, p: Path)
    requires Start(s) && Enabled(umask, s, acts)
    requires id in After(umask, s, acts).tasks && After(umask, s, acts).tasks[id].Cleaning?
    ensures var s' := After(umask, s, acts); Some(s'.tasks[id].put.file) !in Hist(s'.hist, p)
  {
    var s' := After(umask, s, acts);
    NeverModifiedInPlace(umask, s, acts);
    assert TaskOk(umask, s', id, s'.tasks[id]);
    assert HeldOk(s'.published, s'.hist, p);
  }

  // ---- Temporary names -------------------------------------------------------------------------------

  /** The temporary name is that of a write under way. */
  predicate InUse(s: FS, t: nat) {
    t in s.temps && s.temps[t] in s.owner &&
    var id := s.owner[s.temps[t]];
    id in s.tasks && InPut(s.tasks[id]) && s.tasks[id].put.tmp == t && s.tasks[id].put.file == s.temps[t]
  }

  ghost predicate AllInUse(s: FS) {
    forall t {:trigger InUse(s, t)} | t in s.temps :: InUse(s, t)
  }

  predicate UnlinkFails(s: FS, a: Act) {
    a.Go? && !a.ok && a.id in s.tasks && s.tasks[a.id].Cleaning?
  }

  predicate UnlinksWork(umask: nat -> nat, s: FS, acts: seq<Act>)
    requires Enabled(umask, s, acts)
    decreases |acts|
  {
    |acts| > 0 ==> !UnlinkFails(s, acts[0]) && UnlinksWork(umask, Step(umask, s, acts[0]), acts[1..])
  }

  lemma InUseStart(umask: nat -> nat, s: FS, id: nat, ok: bool, n: nat)
    requires Fresh(s) && AllInUse(s) && id in s.tasks && InStart(s.tasks[id])
    ensures AllInUse(StartCall(umask, s, id, ok, n))
  {
    var s' := StartCall(umask, s, id, ok, n);
    forall t | t in s'.temps ensures InUse(s', t) {
      if t in s.temps { assert InUse(s, t); }
    }
  }

  lemma InUsePut(s: FS, id: nat, ok: bool, n: nat)
    requires AllInUse(s) && id in s.tasks && InPut(s.tasks[id]) && !UnlinkFails(s, Go(id, ok, n))
    ensures AllInUse(PutCall(s, id, ok, n))
  {
    var s' := PutCall(s, id, ok, n);
    forall t | t in s'.temps ensures InUse(s', t) { assert InUse(s, t); }
  }

  lemma InUseElsewhere(s: FS, s': FS, id: nat)
    requires AllInUse(s) && s'.temps == s.temps && s'.owner == s.owner
    requires forall k | k in s.tasks && k != id :: k in s'.tasks && s'.tasks[k] == s.tasks[k]
    requires id in s.tasks ==> !InPut(s.tasks[id])
    ensures AllInUse(s')
  {
    forall t | t in s'.temps ensures InUse(s', t) { assert InUse(s, t); }
  }

  lemma InUseFetch(s: FS, id: nat, ok: bool, n: nat)
    requires AllInUse(s) && id in s.tasks && InFetch(s.tasks[id])
    ensures AllInUse(FetchCall(s, id, ok, n))
  {
    InUseElsewhere(s, FetchCall(s, id, ok, n), id);
  }

  lemma InUseLink(s: FS, id: nat, ok: bool)
    requires AllInUse(s) && id in s.tasks && InLink(s.tasks[id])
    ensures AllInUse(LinkCall(s, id, ok))
  {
    InUseElsewhere(s, LinkCall(s, id, ok), id);
  }

  lemma InUseStep(umask: nat -> nat, s: FS, a: Act)
    requires Fresh(s) && AllInUse(s) && Can(s, a) && !UnlinkFails(s, a)
    ensures AllInUse(Step(umask, s, a))
  {
    if a.Begin? {
      InUseElsewhere(s, Step(umask, s, a), a.id);
    } else if InFetch(s.tasks[a.id]) {
      InUseFetch(s, a.id, a.ok, a.n);
    } else if InStart(s.tasks[a.id]) {
      InUseStart(umask, s, a.id, a.ok, a.n);
    } else if InPut(s.tasks[a.id]) {
      InUsePut(s, a.id, a.ok, a.n);
    } else {
      InUseLink(s, a.id, a.ok);
    }
  }

  /** Over any run in which the kernel lets temporary files be unlinked, every temporary name there is belongs to a
      write still under way: whether a write succeeds or fails, it leaves none behind. */
  lemma {:induction false} NothingLeftBehind(umask: nat -> nat, s: FS, acts: seq<Act>)
    requires Inv(umask, s) && AllInUse(s) && Enabled(umask, s, acts) && UnlinksWork(umask, s, acts)
    ensures AllInUse(After(umask, s, acts))
    decreases |acts|
  {
    if |acts| == 0 {
    } else {
      InUseStep(umask, s, acts[0]);
      StepKeeps(umask, s, acts[0]);
      NothingLeftBehind(umask, Step(umask, s, acts[0]), acts[1..]);
    }
  }
}
