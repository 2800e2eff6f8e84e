/** Following `extends` from config to config (`load_raw` in orchestrator/config.py). */
module Inheritance {
  import opened Wrappers
  import opened Merge

  type Path = string
  type File = string

  datatype Document = Malformed | Parsed(table: Entries)

  datatype LoadError = Cycle | NotFound(at: File) | Unparseable(at: File) | ExtendsNotText(at: File) | Outside(at: File)

  /** The files there are, by resolved path; how paths resolve; and which parent path, if any is allowed, a value
      of `extends` names from a given file. */
  datatype World = World(docs: map<File, Document>, realpath: Path -> File, parent: (string, File) -> Option<Path>)

  datatype Link = Root(table: Entries) | Child(parent: Path, table: Entries) | Broken(error: LoadError)

  /** What one file says, read by itself. */
  function Read(w: World, path: Path): (link: Link)
    ensures !link.Broken? ==> w.realpath(path) in w.docs && "extends" !in link.table
    ensures link != Broken(Cycle)
  {
    var file := w.realpath(path);
    if file !in w.docs then Broken(NotFound(file))
    else match w.docs[file]
      case Malformed => Broken(Unparseable(file))
      case Parsed(table) =>
        if "extends" !in table then Root(table)
        else if !table["extends"].Text? then Broken(ExtendsNotText(file))
        else match w.parent(table["extends"].text, file)
          case None => Broken(Outside(file))
          case Some(parent) => Child(parent, table - {"extends"})
  }

  /** `load_raw`. It always ends: every file it reads is one it has not read before. */
  function LoadRaw(w: World, path: Path, seen: set<File>): Result<Entries, LoadError>
    decreases w.docs.Keys - seen
  {
    var file := w.realpath(path);
    if file in seen then Err(Cycle)
    else match Read(w, path)
      case Broken(e) => Err(e)
      case Root(table) => Ok(table)
      case Child(parent, table) =>
        match LoadRaw(w, parent, seen + {file})
        case Err(e) => Err(e)
        case Ok(base) => Ok(Merge.Merge(base, Table(table)))
  }

  // ---- The chain of files --------------------------------------------------------------------------

  /** The file at a path is there and can be parsed. */
  predicate Parses(w: World, path: Path) {
    w.realpath(path) in w.docs && w.docs[w.realpath(path)].Parsed?
  }

  /** What it says, without its `extends`. */
  function TableAt(w: World, path: Path): Entries
    requires Parses(w, path)
  {
    w.docs[w.realpath(path)].table - {"extends"}
  }

  /** Its `extends`. */
  function ExtendsAt(w: World, path: Path): Option<Value>
    requires Parses(w, path)
  {
    var table := w.docs[w.realpath(path)].table;
    if "extends" in table then Some(table["extends"]) else None
  }

  predicate ExtendsTo(w: World, path: Path, parent: Path) {
    Parses(w, path) && ExtendsAt(w, path).Some? && ExtendsAt(w, path).value.Text? &&
    w.parent(ExtendsAt(w, path).value.text, w.realpath(path)) == Some(parent)
  }

  predicate ExtendsNothing(w: World, path: Path) {
    Parses(w, path) && ExtendsAt(w, path).None?
  }

  /** What keeps the file at a path from being read. */
  predicate FailsAt(w: World, path: Path, e: LoadError) {
    var file := w.realpath(path);
    match e
    case Cycle => false
    case NotFound(at) => at == file && file !in w.docs
    case Unparseable(at) => at == file && file in w.docs && w.docs[file].Malformed?
    case ExtendsNotText(at) => at == file && Parses(w, path) && ExtendsAt(w, path).Some? && !ExtendsAt(w, path).value.Text?
    case Outside(at) =>
      && at == file && Parses(w, path) && ExtendsAt(w, path).Some? && ExtendsAt(w, path).value.Text?
      && w.parent(ExtendsAt(w, path).value.text, file).None?
  }

  /** Reading a file says which of these it is. */
  lemma ReadSays(w: World, path: Path)
    ensures forall parent :: ExtendsTo(w, path, parent) <==> Read(w, path).Child? && Read(w, path).parent == parent
    ensures ExtendsNothing(w, path) <==> Read(w, path).Root?
    ensures forall e :: FailsAt(w, path, e) <==> Read(w, path) == Broken(e)
    ensures Parses(w, path) && !Read(w, path).Broken? ==> Read(w, path).table == TableAt(w, path)
  {
  }

  /** From each file to the one it extends. */
  predicate Chain(w: World, chain: seq<Path>) {
    |chain| > 0 && forall i | 0 <= i < |chain| - 1 :: ExtendsTo(w, chain[i], chain[i + 1])
  }

  function Files(w: World, chain: seq<Path>): set<File> {
    set i | 0 <= i < |chain| :: w.realpath(chain[i])
  }

  predicate NoRepeat(w: World, chain: seq<Path>) {
    forall i, j | 0 <= i < j < |chain| :: w.realpath(chain[i]) != w.realpath(chain[j])
  }

  predicate Readable(w: World, chain: seq<Path>) {
    forall i | 0 <= i < |chain| :: Parses(w, chain[i])
  }

  /** The tables along the chain merged, each over the file it extends: the last file of the chain is the root. */
  function FromRoot(w: World, chain: seq<Path>): Entries
    requires |chain| > 0 && Readable(w, chain)
  {
    if |chain| == 1 then TableAt(w, chain[0])
    else Merge.Merge(FromRoot(w, chain[1..]), Table(TableAt(w, chain[0])))
  }

  /** What loading the first file of a chain gives, if the chain is followed to where loading stops. */
  ghost predicate Explains(w: World, seen: set<File>, chain: seq<Path>, r: Result<Entries, LoadError>) {
    && Chain(w, chain)
    && var n := |chain| - 1;
       && NoRepeat(w, chain[..n]) && Files(w, chain[..n]) !! seen
       && if w.realpath(chain[n]) in Files(w, chain[..n]) + seen then r == Err(Cycle)
          else match r
            case Err(e) => FailsAt(w, chain[n], e)
            case Ok(table) => ExtendsNothing(w, chain[n]) && Readable(w, chain) && table == FromRoot(w, chain)
  }

  lemma ExplainsFirst(w: World, seen: set<File>, path: Path, rest: seq<Path>, r: Result<Entries, LoadError>)
    requires |rest| > 0 && ExtendsTo(w, path, rest[0]) && w.realpath(path) !in seen
    requires Explains(w, seen + {w.realpath(path)}, rest, r)
    ensures Explains(w, seen, [path] + rest,
                     if r.Ok? then Ok(Merge.Merge(r.value, Table(TableAt(w, path)))) else r)
  {
    var chain := [path] + rest;
    var n := |rest| - 1;
    forall i | 0 <= i < |chain| - 1 ensures ExtendsTo(w, chain[i], chain[i + 1]) {
      if i > 0 { assert ExtendsTo(w, rest[i - 1], rest[i]); }
    }
    assert chain[..n + 1] == [path] + rest[..n];
    FilesFirst(w, path, rest[..n]);
    NoRepeatFirst(w, path, rest[..n]);
    assert chain[1..] == rest;
  }

  lemma FilesFirst(w: World, path: Path, rest: seq<Path>)
    ensures Files(w, [path] + rest) == Files(w, rest) + {w.realpath(path)}
  {
    var chain := [path] + rest;
    forall x ensures x in Files(w, chain) <==> x in Files(w, rest) + {w.realpath(path)} {
      if x in Files(w, rest) {
        var i :| 0 <= i < |rest| && x == w.realpath(rest[i]);
        assert chain[i + 1] == rest[i];
      }
      if x == w.realpath(path) { assert chain[0] == path; }
    }
  }

  lemma NoRepeatFirst(w: World, path: Path, rest: seq<Path>)
    ensures NoRepeat(w, [path] + rest) <==> NoRepeat(w, rest) && w.realpath(path) !in Files(w, rest)
  {
    var chain := [path] + rest;
    if NoRepeat(w, chain) {
      forall i, j | 0 <= i < j < |rest| ensures w.realpath(rest[i]) != w.realpath(rest[j]) {
        assert chain[i + 1] == rest[i] && chain[j + 1] == rest[j];
      }
      forall i | 0 <= i < |rest| ensures w.realpath(rest[i]) != w.realpath(path) { assert chain[0] == path && chain[i + 1] == rest[i]; }
    }
  }

  /** Loading follows a chain, and gives what that chain says. */
  lemma {:induction false} LoadFollowsChain(w: World, path: Path, seen: set<File>) returns (chain: seq<Path>)
    ensures |chain| > 0 && chain[0] == path && Explains(w, seen, chain, LoadRaw(w, path, seen))
    decreases w.docs.Keys - seen
  {
    chain := [path];
    ReadSays(w, path);
    if w.realpath(path) !in seen && Read(w, path).Child? {
      var parent := Read(w, path).parent;
      var rest := LoadFollowsChain(w, parent, seen + {w.realpath(path)});
      assert ExtendsTo(w, path, parent);
      ExplainsFirst(w, seen, path, rest, LoadRaw(w, parent, seen + {w.realpath(path)}));
      chain := [path] + rest;
    } else {
      assert chain[..0] == [];
      if Read(w, path).Broken? { assert FailsAt(w, path, Read(w, path).error); }
    }
  }

  /** Each file has at most one parent, so two chains from one file agree as far as both go. */
  lemma {:induction false} ChainsAgree(w: World, c: seq<Path>, d: seq<Path>, i: nat)
    requires Chain(w, c) && Chain(w, d) && c[0] == d[0] && i < |c| && i < |d|
    ensures c[i] == d[i]
  {
    if i == 0 {
    } else {
      ChainsAgree(w, c, d, i - 1);
      assert ExtendsTo(w, c[i - 1], c[i - 1 + 1]) && ExtendsTo(w, d[i - 1], d[i - 1 + 1]);
    }
  }

  /** Loading cannot go on where a shorter chain says that it stops. */
  lemma NotLonger(w: World, c: seq<Path>, d: seq<Path>, r: Result<Entries, LoadError>, s: Result<Entries, LoadError>)
    requires Explains(w, {}, c, r) && Explains(w, {}, d, s) && c[0] == d[0]
    ensures |c| >= |d|
  {
    if |c| < |d| {
      var n := |c| - 1;
      ChainsAgree(w, c, d, n);
      assert ExtendsTo(w, d[n], d[n + 1]);
      assert w.realpath(c[n]) in Files(w, c[..n]);
      var i :| 0 <= i < n && w.realpath(c[i]) == w.realpath(c[n]);
      var earlier := d[..|d| - 1];
      assert earlier[i] == d[i] && earlier[n] == d[n];
      ChainsAgree(w, c, d, i);
    }
  }

  /** What loading gives is settled by the files: any chain that explains a result explains the result. */
  lemma LoadedAsExplained(w: World, path: Path, chain: seq<Path>, r: Result<Entries, LoadError>)
    requires |chain| > 0 && chain[0] == path && Explains(w, {}, chain, r)
    ensures LoadRaw(w, path, {}) == r
  {
    var followed := LoadFollowsChain(w, path, {});
    NotLonger(w, chain, followed, r, LoadRaw(w, path, {}));
    NotLonger(w, followed, chain, LoadRaw(w, path, {}), r);
    forall i | 0 <= i < |chain| ensures chain[i] == followed[i] { ChainsAgree(w, chain, followed, i); }
    assert chain == followed;
  }

  /** The chain comes back to a file it has already read, and nothing was wrong before. */
  ghost predicate Revisits(w: World, path: Path, chain: seq<Path>) {
    && Chain(w, chain) && chain[0] == path && NoRepeat(w, chain[..|chain| - 1])
    && w.realpath(chain[|chain| - 1]) in Files(w, chain[..|chain| - 1])
  }

  /** A cycle is reported exactly for the chains that revisit a file. */
  lemma CycleExactly(w: World, path: Path)
    ensures LoadRaw(w, path, {}) == Err(Cycle) <==> exists chain :: Revisits(w, path, chain)
  {
    if LoadRaw(w, path, {}) == Err(Cycle) {
      var chain := LoadFollowsChain(w, path, {});
      assert Revisits(w, path, chain);
    }
    if chain :| Revisits(w, path, chain) { LoadedAsExplained(w, path, chain, Err(Cycle)); }
  }

  /** The chain ends at a file that extends nothing, without coming back to any. */
  ghost predicate Complete(w: World, path: Path, chain: seq<Path>) {
    Chain(w, chain) && chain[0] == path && NoRepeat(w, chain) && ExtendsNothing(w, chain[|chain| - 1])
  }

  /** The config of each file of the chain: the last is its own table, any other its table merged over the config of
      the next. */
  ghost predicate Configs(w: World, chain: seq<Path>, configs: seq<Entries>) {
    && |configs| == |chain| > 0 && Readable(w, chain)
    && configs[|chain| - 1] == TableAt(w, chain[|chain| - 1])
    && forall i | 0 <= i < |chain| - 1 :: configs[i] == Merge.Merge(configs[i + 1], Table(TableAt(w, chain[i])))
  }

  lemma {:induction false} ConfigsOf(w: World, chain: seq<Path>) returns (configs: seq<Entries>)
    requires |chain| > 0 && Readable(w, chain)
    ensures Configs(w, chain, configs) && configs[0] == FromRoot(w, chain)
  {
    if |chain| == 1 {
      configs := [TableAt(w, chain[0])];
    } else {
      var rest := ConfigsOf(w, chain[1..]);
      configs := [FromRoot(w, chain)] + rest;
      forall i | 0 <= i < |chain| - 1
        ensures configs[i] == Merge.Merge(configs[i + 1], Table(TableAt(w, chain[i])))
      {
        if i > 0 { assert rest[i - 1] == Merge.Merge(rest[i - 1 + 1], Table(TableAt(w, chain[1..][i - 1]))); }
      }
      assert chain[1..][|chain| - 2] == chain[|chain| - 1];
    }
  }

  lemma {:induction false} ConfigsOnce(w: World, chain: seq<Path>, configs: seq<Entries>)
    requires Configs(w, chain, configs)
    ensures configs[0] == FromRoot(w, chain)
  {
    if |chain| == 1 {
    } else {
      forall i | 0 <= i < |chain| - 2
        ensures configs[1..][i] == Merge.Merge(configs[1..][i + 1], Table(TableAt(w, chain[1..][i])))
      {
        assert configs[i + 1] == Merge.Merge(configs[i + 1 + 1], Table(TableAt(w, chain[i + 1])));
      }
      ConfigsOnce(w, chain[1..], configs[1..]);
      assert configs[0] == Merge.Merge(configs[0 + 1], Table(TableAt(w, chain[0])));
    }
  }

  /** A config loads exactly when its chain is complete, and is then the merge of the chain from its root. */
  lemma LoadsExactly(w: World, path: Path, table: Entries)
    ensures LoadRaw(w, path, {}) == Ok(table) <==>
            exists chain, configs :: Complete(w, path, chain) && Configs(w, chain, configs) && table == configs[0]
  {
    if LoadRaw(w, path, {}) == Ok(table) {
      var chain := LoadFollowsChain(w, path, {});
      LastApart(w, chain);
      var configs := ConfigsOf(w, chain);
      assert Complete(w, path, chain) && Configs(w, chain, configs) && table == configs[0];
    }
    if chain, configs :| Complete(w, path, chain) && Configs(w, chain, configs) && table == configs[0] {
      LastApart(w, chain);
      ConfigsOnce(w, chain, configs);
      LoadedAsExplained(w, path, chain, Ok(table));
    }
  }

  /** Any other failure is that of the file where the chain breaks off. */
  lemma FailsExactly(w: World, path: Path, e: LoadError)
    requires !e.Cycle?
    ensures LoadRaw(w, path, {}) == Err(e) <==>
            exists chain :: Chain(w, chain) && chain[0] == path && NoRepeat(w, chain) && FailsAt(w, chain[|chain| - 1], e)
  {
    if LoadRaw(w, path, {}) == Err(e) {
      var chain := LoadFollowsChain(w, path, {});
      LastApart(w, chain);
    }
    if chain :| Chain(w, chain) && chain[0] == path && NoRepeat(w, chain) && FailsAt(w, chain[|chain| - 1], e) {
      LastApart(w, chain);
      LoadedAsExplained(w, path, chain, Err(e));
    }
  }

  lemma LastApart(w: World, chain: seq<Path>)
    requires |chain| > 0
    ensures NoRepeat(w, chain) <==>
            NoRepeat(w, chain[..|chain| - 1]) && w.realpath(chain[|chain| - 1]) !in Files(w, chain[..|chain| - 1])
  {
    var n := |chain| - 1;
    if NoRepeat(w, chain) {
      forall i | 0 <= i < n ensures w.realpath(chain[..n][i]) != w.realpath(chain[n]) {}
    } else {
      var i, j :| 0 <= i < j < |chain| && w.realpath(chain[i]) == w.realpath(chain[j]);
      if j == n {
        assert chain[..n][i] == chain[i];
      } else {
        assert chain[..n][i] == chain[i] && chain[..n][j] == chain[j];
      }
    }
  }
}
