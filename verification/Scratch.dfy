/** Which paths the local filesystem driver admits: the root, and scratch directories known by identity
    (modules/filesystem/local.py). */
module Scratch {
  import opened Wrappers

  /** A resolved path, by segments; the text of it is what the program compares. */
  type Path = seq<string>

  predicate Segment(s: string) {
    |s| > 0 && '/' !in s
  }

  predicate Resolved(p: Path) {
    forall i | 0 <= i < |p| :: Segment(p[i])
  }

  function Joined(p: Path): string {
    if |p| == 0 then "" else "/" + p[0] + Joined(p[1..])
  }

  function Text(p: Path): string {
    if |p| == 0 then "/" else Joined(p)
  }

  /** The test of `_resolve`: equal, or starting with the root's text and a separator. */
  predicate UnderRoot(full: Path, root: Path) {
    Text(full) == Text(root) || Text(root) + "/" <= Text(full)
  }

  /** Texts agree only where segments do. */
  lemma {:induction false} SegmentCut(s: string, x: string, t: string, y: string)
    requires '/' !in s && '/' !in t && (y == "" || y[0] == '/')
    requires s + "/" + x <= t + y
    ensures s == t && "/" + x <= y
  {
    if |s| > 0 { assert s[0] in s && (s + "/" + x)[0] == s[0] == (t + y)[0]; }
    if |t| > 0 { assert t[0] in t && (t + y)[0] == t[0] == (s + "/" + x)[0]; }
    if |s| == 0 {
      assert s + "/" + x == "/" + x && t + y == y;
    } else if |t| == 0 {
    } else {
      assert (s + "/" + x)[1..] == s[1..] + "/" + x && (t + y)[1..] == t[1..] + y;
      SegmentCut(s[1..], x, t[1..], y);
      assert s == [s[0]] + s[1..] && t == [t[0]] + t[1..];
    }
  }

  lemma PrefixCons(c: string, u: string, v: string)
    ensures c + u <= c + v <==> u <= v
  {
    if c + u <= c + v { assert u == (c + u)[|c|..] && v == (c + v)[|c|..] && (c + v)[..|c + u|] == c + u; }
    if u <= v { assert v == u + v[|u|..] && c + v == c + u + v[|u|..]; }
  }

  lemma {:induction false} PrefixBySegments(root: Path, full: Path)
    requires Resolved(root) && Resolved(full)
    ensures Joined(root) + "/" <= Joined(full) <==> |root| < |full| && root == full[..|root|]
  {
    if |root| == 0 || |full| == 0 {
    } else {
      var a, b := Joined(root[1..]) + "/", Joined(full[1..]);
      PrefixBySegments(root[1..], full[1..]);
      assert Joined(root) + "/" == "/" + (root[0] + a) && Joined(full) == "/" + (full[0] + b);
      PrefixCons("/", root[0] + a, full[0] + b);
      assert a == "/" + a[1..] && root[0] + a == root[0] + "/" + a[1..];
      if root[0] + a <= full[0] + b { SegmentCut(root[0], a[1..], full[0], b); }
      if root[0] == full[0] { PrefixCons(root[0], a, b); }
      assert root == [root[0]] + root[1..] && full == [full[0]] + full[1..];
      assert |root| < |full| ==> full[..|root|] == [full[0]] + full[1..][..|root| - 1];
    }
  }

  lemma {:induction false} TextIsPath(p: Path, q: Path)
    requires Resolved(p) && Resolved(q)
    ensures Text(p) == Text(q) <==> p == q
  {
    if |p| > 0 { assert Segment(p[0]) && |Text(p)| >= 2; }
    if |q| > 0 { assert Segment(q[0]) && |Text(q)| >= 2; }
    if Text(p) == Text(q) && |p| > 0 && |q| > 0 {
      PrefixBySegments(p, q + ["x"]);
      PrefixBySegments(q, p + ["x"]);
      JoinedAppend(p, "x");
      JoinedAppend(q, "x");
    }
  }

  lemma {:induction false} JoinedAppend(p: Path, s: string)
    ensures Joined(p + [s]) == Joined(p) + "/" + s
  {
    if |p| > 0 {
      JoinedAppend(p[1..], s);
      assert (p + [s])[1..] == p[1..] + [s];
    } else {
      assert (p + [s])[1..] == [];
    }
  }

  /** Exactly what the test admits: the root and, by whole segments, everything below it, unless the root is the
      file system's own root, of which it admits nothing but itself. */
  lemma UnderRootMeaning(full: Path, root: Path)
    requires Resolved(full) && Resolved(root)
    ensures UnderRoot(full, root) <==> full == root || (root != [] && |root| < |full| && root == full[..|root|])
  {
    TextIsPath(full, root);
    if |root| > 0 {
      if |full| > 0 { PrefixBySegments(root, full); }
    } else if |full| > 0 {
      assert Text(full)[0] == '/' && Text(full)[1] == full[0][0];
      assert full[0][0] in full[0];
    }
  }

  /** With `/` as the root nothing below it is admitted: its text already ends in the separator. */
  lemma NothingUnderSlash()
    ensures !UnderRoot(["etc"], [])
  {
    UnderRootMeaning(["etc"], []);
  }

  // ---- Scratch directories ---------------------------------------------------------------------------

  /** What `lstat` tells apart: a device and inode number, and for directories the owner. */
  type Identity = nat

  datatype Object = Directory(owner: nat, id: Identity) | NotDirectory(owner: nat, id: Identity)

  type Disk = map<Path, Object>

  /** The directories handed out, each with the identity it was created with. */
  type Records = map<Path, Identity>

  /** What happens to the authority: a path is asked for, with what `realpath` and `lstat` say at that moment; a
      directory is removed; `mkdtemp` makes one. */
  datatype Event = Ask(full: Path, root: Path, disk: Disk) | Removed(full: Path) | Made(full: Path, id: Identity)

  predicate Above(p: Path, full: Path) {
    p <= full
  }

  /** The nearest recorded directory that `full` is or lies under. */
  function Nearest(records: Records, full: Path): (r: Option<Path>)
    ensures r.Some? ==> r.value in records && Above(r.value, full)
  {
    if full in records then Some(full)
    else if |full| == 0 then None
    else Nearest(records, full[..|full| - 1])
  }

  lemma {:induction false} NearestIsNearest(records: Records, full: Path, p: Path)
    requires p in records && Above(p, full)
    ensures Nearest(records, full).Some? && |p| <= |Nearest(records, full).value|
  {
    if full in records {
    } else {
      assert p == full[..|p|] && p != full;
      NearestIsNearest(records, full[..|full| - 1], p);
    }
  }

  predicate Alive(euid: nat, disk: Disk, p: Path, id: Identity) {
    p in disk && disk[p] == Directory(euid, id)
  }

  predicate Admitted(euid: nat, records: Records, full: Path, root: Path, disk: Disk) {
    UnderRoot(full, root) ||
    (Nearest(records, full).Some? &&
     Alive(euid, disk, Nearest(records, full).value, records[Nearest(records, full).value]))
  }

  function Step(euid: nat, records: Records, e: Event): Records {
    match e
    case Ask(full, root, disk) =>
      var near := Nearest(records, full);
      if UnderRoot(full, root) || near.None? || Alive(euid, disk, near.value, records[near.value]) then records
      else records - {near.value}
    case Removed(full) => records - {full}
    case Made(full, id) => records[full := id]
  }

  function After(euid: nat, records: Records, events: seq<Event>): Records {
    if |events| == 0 then records else Step(euid, After(euid, records, events[..|events| - 1]), events[|events| - 1])
  }

  /** Admission, in full: under the root by whole segments, or under a record none is nearer than, which is at that
      moment a real directory of this process's with the identity recorded. */
  lemma AdmittedExactly(euid: nat, records: Records, full: Path, root: Path, disk: Disk)
    requires Resolved(full) && Resolved(root)
    ensures Admitted(euid, records, full, root, disk) <==>
            || full == root || (root != [] && |root| < |full| && root == full[..|root|])
            || exists p | p in records :: && Above(p, full) && Alive(euid, disk, p, records[p])
                                          && forall q | q in records && Above(q, full) :: |q| <= |p|
  {
    UnderRootMeaning(full, root);
    var near := Nearest(records, full);
    if near.Some? {
      forall q | q in records && Above(q, full) ensures |q| <= |near.value| { NearestIsNearest(records, full, q); }
    }
    forall p | p in records && Above(p, full) && (forall q | q in records && Above(q, full) :: |q| <= |p|)
      ensures near == Some(p)
    {
      NearestIsNearest(records, full, p);
      assert near.value == full[..|near.value|] && p == full[..|p|];
    }
  }

  // ---- Whole runs ------------------------------------------------------------------------------------

  predicate NoRecordAbove(records: Records, full: Path) {
    forall p | p in records :: !Above(p, full)
  }

  predicate NotMadeAbove(events: seq<Event>, full: Path) {
    forall i | 0 <= i < |events| && events[i].Made? :: !Above(events[i].full, full)
  }

  /** Once no record lies above a path, it is refused, however long the run and whatever sits there, until `mkdtemp`
      issues a directory above it. */
  lemma {:induction false} RetiredStaysOut(euid: nat, records: Records, events: seq<Event>, full: Path, root: Path,
                                           disk: Disk)
    requires NoRecordAbove(records, full) && NotMadeAbove(events, full) && !UnderRoot(full, root)
    ensures NoRecordAbove(After(euid, records, events), full)
    ensures !Admitted(euid, After(euid, records, events), full, root, disk)
  {
    if |events| == 0 {
    } else {
      RetiredStaysOut(euid, records, events[..|events| - 1], full, root, disk);
      var e := events[|events| - 1];
      if e.Made? { assert !Above(e.full, full); }
    }
  }

  /** A refusal on the ground of a record retires it: if no other record lies above, nothing under it is admitted
      any more. */
  lemma MismatchRetires(euid: nat, records: Records, full: Path, root: Path, disk: Disk, below: Path)
    requires !UnderRoot(full, root) && Nearest(records, full).Some?
    requires !Admitted(euid, records, full, root, disk)
    requires forall p | p in records && Above(p, below) :: p == Nearest(records, full).value
    ensures Nearest(records, full).value !in Step(euid, records, Ask(full, root, disk))
    ensures NoRecordAbove(Step(euid, records, Ask(full, root, disk)), below)
  {
    var near := Nearest(records, full).value;
    assert Step(euid, records, Ask(full, root, disk)) == records - {near};
  }

  /** `mkdtemp` made `p` with this identity at `j`, and nothing since has removed, replaced or retired it. */
  predicate MadeAt(euid: nat, events: seq<Event>, p: Path, id: Identity, j: nat) {
    && j < |events| && events[j] == Made(p, id)
    && forall k | j < k < |events| :: events[k] != Removed(p) && !(events[k].Made? && events[k].full == p)
  }

  /** Every record is a directory this process made. */
  lemma {:induction false} RecordsAreMade(euid: nat, events: seq<Event>, p: Path) returns (j: nat)
    requires p in After(euid, map[], events)
    ensures MadeAt(euid, events, p, After(euid, map[], events)[p], j)
  {
    var n := |events| - 1;
    var e := events[n];
    if e.Made? && e.full == p {
      j := n;
    } else {
      var before := After(euid, map[], events[..n]);
      assert p in before && before[p] == After(euid, map[], events)[p];
      j := RecordsAreMade(euid, events[..n], p);
      assert forall k | j < k < n :: events[k] == events[..n][k];
    }
  }

  /** Over any run from the start of the process: a path outside the root is admitted only under a directory that
      `mkdtemp` made in this run, has not removed or remade since, and that still is the one it made. */
  lemma AdmittedIsOurs(euid: nat, events: seq<Event>, full: Path, root: Path, disk: Disk)
      returns (p: Path, id: Identity, j: nat)
    requires Admitted(euid, After(euid, map[], events), full, root, disk) && !UnderRoot(full, root)
    ensures Above(p, full) && MadeAt(euid, events, p, id, j) && Alive(euid, disk, p, id)
  {
    var records := After(euid, map[], events);
    p := Nearest(records, full).value;
    id := records[p];
    j := RecordsAreMade(euid, events, p);
  }

  // ---- The driver ------------------------------------------------------------------------------------

  class Authority {
    const euid: nat
    var scratch: Records

    constructor (uid: nat)
      ensures euid == uid && scratch == map[]
    {
      euid, scratch := uid, map[];
    }

    /** `_scratch_ancestor`: upwards until a record or the top. */
    method ScratchAncestor(full: Path) returns (r: Option<Path>)
      ensures r == Nearest(scratch, full)
    {
      var cursor := full;
      while true
        invariant Nearest(scratch, cursor) == Nearest(scratch, full)
        decreases |cursor|
      {
        if cursor in scratch { return Some(cursor); }
        if |cursor| == 0 { return None; }
        cursor := cursor[..|cursor| - 1];
      }
    }

    /** `_scratch_alive`: a mismatch retires the record. */
    method ScratchAlive(directory: Path, disk: Disk) returns (alive: bool)
      requires directory in scratch
      modifies this
      ensures alive <==> Alive(euid, disk, directory, old(scratch)[directory])
      ensures scratch == if alive then old(scratch) else old(scratch) - {directory}
    {
      if directory !in disk {
        scratch := scratch - {directory};
        return false;
      }
      var st := disk[directory];
      alive := st.Directory? && st.owner == euid && st.id == scratch[directory];
      if !alive { scratch := scratch - {directory}; }
    }

    /** `_resolve`, on the resolved path and the resolved root. */
    method Resolve(full: Path, root: Path, disk: Disk) returns (ok: bool)
      modifies this
      ensures ok <==> Admitted(euid, old(scratch), full, root, disk)
      ensures scratch == Step(euid, old(scratch), Ask(full, root, disk))
    {
      if Text(full) == Text(root) || Text(root) + "/" <= Text(full) { return true; }
      var near := ScratchAncestor(full);
      if near.None? { return false; }
      ok := ScratchAlive(near.value, disk);
    }

    /** `delete` of a directory: `removed` is whether `rmdir(2)` succeeded. */
    method DeleteDirectory(full: Path, root: Path, disk: Disk, removed: bool) returns (ok: bool)
      modifies this
      ensures ok <==> removed && Admitted(euid, old(scratch), full, root, disk)
      ensures scratch == After(euid, old(scratch), [Ask(full, root, disk)] + if ok then [Removed(full)] else [])
    {
      ghost var ask := [Ask(full, root, disk)];
      assert ask[..0] == [] && (ask + [Removed(full)])[..1] == ask && ask + [] == ask;
      assert After(euid, scratch, ask[..0]) == scratch;
      assert After(euid, scratch, ask) == Step(euid, scratch, ask[0]);
      assert After(euid, scratch, ask + [Removed(full)]) == Step(euid, After(euid, scratch, ask), Removed(full));
      ok := Resolve(full, root, disk);
      if !ok || !removed { return false; }
      scratch := scratch - {full};
    }

    /** `mkdtemp`, once `mkdtemp(3)` has made the directory. */
    method Mkdtemp(full: Path, id: Identity)
      modifies this
      ensures scratch == Step(euid, old(scratch), Made(full, id))
    {
      scratch := scratch[full := id];
    }
  }
}
