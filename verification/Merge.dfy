/** Config inheritance: how a child config overrides its parent (`merge_raw` in orchestrator/config.py). */
module Merge {
  import opened Wrappers

  /** A TOML value, as far as merging looks: `false` deletes tables, tables merge, everything else replaces. */
  datatype Value = False | Text(text: string) | Other(id: int) | Table(entries: Entries)

  type Entries = map<string, Value>

  function At(t: Entries, key: string): Option<Value> {
    if key in t then Some(t[key]) else None
  }

  /** What one key of the merge holds, given what the two configs hold there. */
  function MergeAt(x: Option<Value>, y: Option<Value>): Option<Value>
    decreases y
  {
    if y.None? then x
    else if x.None? || !x.value.Table? then y
    else if y.value.False? then None
    else if y.value.Table? then Some(Table(Merge(x.value.entries, y.value)))
    else y
  }

  /** The merge of two tables; the override is passed as a value, so that it contains what is merged below it. */
  function Merge(base: Entries, override: Value): (out: Entries)
    requires override.Table?
    decreases override, 0
  {
    var o := override.entries;
    map key | key in base.Keys + o.Keys && Kept(At(base, key), At(o, key)) ::
      if key !in o then base[key]
      else if key in base && base[key].Table? && o[key].Table? then Table(Merge(base[key].entries, o[key]))
      else o[key]
  }

  predicate Kept(x: Option<Value>, y: Option<Value>) {
    !(x.Some? && x.value.Table? && y == Some(False))
  }

  lemma MergeMeaning(base: Entries, override: Value, key: string)
    requires override.Table?
    ensures At(Merge(base, override), key) == MergeAt(At(base, key), At(override.entries, key))
  {
  }

  lemma SameEntries(s: Entries, t: Entries)
    requires forall key {:trigger At(s, key)} :: At(s, key) == At(t, key)
    ensures s == t
  {
    forall key ensures key in s <==> key in t { assert At(s, key) == At(t, key); }
    forall key | key in s ensures s[key] == t[key] { assert At(s, key) == At(t, key); }
  }

  /** The keys in `done` have been merged, the others have not. */
  ghost predicate MergedSoFar(base: Entries, o: Entries, done: set<string>, out: Entries) {
    forall key {:trigger At(out, key)} ::
      At(out, key) == if key in done then MergeAt(At(base, key), At(o, key)) else At(base, key)
  }

  lemma MergedOne(base: Entries, o: Entries, done: set<string>, out: Entries, key: string, out': Entries)
    requires MergedSoFar(base, o, done, out) && At(out', key) == MergeAt(At(base, key), At(o, key))
    requires forall k {:trigger At(out', k)} :: k != key ==> At(out', k) == At(out, k)
    ensures MergedSoFar(base, o, done + {key}, out')
  {
  }

  /** `merge_raw`, filling a copy of the base key by key. */
  method MergeRaw(base: Entries, override: Value) returns (out: Entries)
    requires override.Table?
    ensures out == Merge(base, override)
    decreases override
  {
    var o := override.entries;
    out := base;
    var done: set<string> := {};
    while o.Keys - done != {}
      invariant done <= o.Keys && MergedSoFar(base, o, done, out)
      decreases o.Keys - done
    {
      var key :| key in o.Keys - done;
      assert At(out, key) == At(base, key);
      ghost var before := out;
      if key in out && out[key].Table? && o[key].False? {
        out := out - {key};
      } else if key in out && out[key].Table? && o[key].Table? {
        var merged := MergeRaw(out[key].entries, o[key]);
        out := out[key := Table(merged)];
      } else {
        out := out[key := o[key]];
      }
      MergedOne(base, o, done, before, key, out);
      done := done + {key};
    }
    forall key ensures At(out, key) == At(Merge(base, override), key) { MergeMeaning(base, override, key); }
    SameEntries(out, Merge(base, override));
  }

  // ---- Lookup by path ------------------------------------------------------------------------------

  function Lookup(t: Value, path: seq<string>): Option<Value>
    decreases |path|
  {
    if |path| == 0 then Some(t)
    else if t.Table? && path[0] in t.entries then Lookup(t.entries[path[0]], path[1..])
    else None
  }

  /** Above the end of the path, `t` has something that is not a table. */
  predicate Cut(t: Value, path: seq<string>) {
    exists n | 0 < n < |path| :: CutAt(t, path, n)
  }

  predicate CutAt(t: Value, path: seq<string>, n: nat)
    requires n <= |path|
  {
    Lookup(t, path[..n]).Some? && !Lookup(t, path[..n]).value.Table?
  }

  lemma CutBelow(t: Value, path: seq<string>)
    requires |path| > 1 && t.Table? && path[0] in t.entries
    ensures Cut(t, path) <==> !t.entries[path[0]].Table? || Cut(t.entries[path[0]], path[1..])
  {
    var below := t.entries[path[0]];
    forall n | 0 < n < |path| ensures Lookup(t, path[..n]) == Lookup(below, path[1..][..n - 1]) {
      assert path[..n][1..] == path[1..][..n - 1];
    }
    if Cut(t, path) && below.Table? {
      var n :| 0 < n < |path| && CutAt(t, path, n);
      assert CutAt(below, path[1..], n - 1);
    }
    if below.Table? && Cut(below, path[1..]) {
      var n :| 0 < n < |path[1..]| && CutAt(below, path[1..], n);
      assert CutAt(t, path, n + 1);
    }
    if !below.Table? { assert CutAt(t, path, 1); }
  }

  lemma NotCutOff(t: Value, path: seq<string>)
    requires |path| > 0 && t.Table? && path[0] !in t.entries
    ensures !Cut(t, path)
  {
    forall n | 0 < n < |path| ensures !CutAt(t, path, n) { assert path[..n][0] == path[0]; }
  }

  lemma {:induction false} NothingBelowACut(t: Value, path: seq<string>)
    requires Cut(t, path)
    ensures Lookup(t, path).None?
    decreases |path|
  {
    var n :| 0 < n < |path| && CutAt(t, path, n);
    if !t.Table? || path[0] !in t.entries || !t.entries[path[0]].Table? {
    } else {
      CutBelow(t, path);
      NothingBelowACut(t.entries[path[0]], path[1..]);
    }
  }

  /** The lookup law: what the merge holds at a path depends on what the two configs hold at that path, and on
      whether the child cut the path off above it. */
  lemma {:induction false} LookupLaw(a: Value, b: Value, path: seq<string>)
    requires a.Table? && b.Table? && |path| > 0
    ensures Lookup(Table(Merge(a.entries, b)), path) ==
            if Cut(b, path) then None else MergeAt(Lookup(a, path), Lookup(b, path))
    decreases |path|
  {
    var key, rest := path[0], path[1..];
    var x, y := At(a.entries, key), At(b.entries, key);
    MergeMeaning(a.entries, b, key);
    if y.None? {
      NotCutOff(b, path);
    } else if |path| == 1 {
    } else {
      CutBelow(b, path);
      if Cut(b, path) { NothingBelowACut(b, path); }
      if x.Some? && x.value.Table? && y.value.Table? { LookupLaw(x.value, y.value, rest); }
    }
  }

  // ---- Associativity -------------------------------------------------------------------------------

  /** Merging `z` over `x` leaves just `z`. */
  predicate Absorbed(x: Entries, z: Value)
    requires z.Table?
    decreases z
  {
    forall key | key in x ::
      && key in z.entries
      && (x[key].Table? ==> !z.entries[key].False?
                            && (z.entries[key].Table? ==> Absorbed(x[key].entries, z.entries[key])))
  }

  lemma {:induction false} AbsorbedMeaning(x: Entries, z: Value)
    requires z.Table?
    ensures Absorbed(x, z) <==> Merge(x, z) == z.entries
    decreases z
  {
    forall key | key in x && key in z.entries && x[key].Table? && z.entries[key].Table?
      ensures Absorbed(x[key].entries, z.entries[key]) <==>
              At(Merge(x, z), key) == At(z.entries, key)
    {
      AbsorbedMeaning(x[key].entries, z.entries[key]);
    }
    if Absorbed(x, z) {
      forall key ensures At(Merge(x, z), key) == At(z.entries, key) { MergeMeaning(x, z, key); }
      SameEntries(Merge(x, z), z.entries);
    } else {
      var key :| key in x && !(key in z.entries &&
        (x[key].Table? ==> !z.entries[key].False? &&
                           (z.entries[key].Table? ==> Absorbed(x[key].entries, z.entries[key]))));
      MergeMeaning(x, z, key);
      assert At(Merge(x, z), key) != At(z.entries, key);
    }
  }

  /** The three configs can be merged in either order: wherever all three hold a key, no `false` in the last meets
      a table, a table deleted or replaced in between is stated again in full by the last, and three tables agree
      below. */
  predicate Associates(a: Entries, b: Entries, c: Value)
    requires c.Table?
    decreases c, 0
  {
    forall key | key in a && key in b && key in c.entries :: AssociatesAt(a[key], b[key], c.entries[key])
  }

  predicate AssociatesAt(x: Value, y: Value, z: Value)
    decreases z, 1
  {
    if z.False? then !x.Table? && !y.Table?
    else if z.Table? && x.Table? then
      if y.Table? then Associates(x.entries, y.entries, z) else Absorbed(x.entries, z)
    else true
  }

  /** One key, whatever lies below. */
  lemma AssociatesAtMeaning(x: Value, y: Value, z: Value)
    requires x.Table? && y.Table? && z.Table? ==>
      (Associates(x.entries, y.entries, z) <==>
       Merge(Merge(x.entries, y), z) == Merge(x.entries, Table(Merge(y.entries, z))))
    ensures AssociatesAt(x, y, z) <==>
            MergeAt(MergeAt(Some(x), Some(y)), Some(z)) == MergeAt(Some(x), MergeAt(Some(y), Some(z)))
  {
    if x.Table? && z.Table? && !y.Table? { AbsorbedMeaning(x.entries, z); }
  }

  /** Exactly when merging is associative. */
  lemma {:induction false} AssociatesExactly(a: Entries, b: Value, c: Value)
    requires b.Table? && c.Table?
    ensures Associates(a, b.entries, c) <==>
            Merge(Merge(a, b), c) == Merge(a, Table(Merge(b.entries, c)))
    decreases c
  {
    var left, right := Merge(Merge(a, b), c), Merge(a, Table(Merge(b.entries, c)));
    forall key ensures
      (key in a && key in b.entries && key in c.entries ==> AssociatesAt(a[key], b.entries[key], c.entries[key])) <==>
      At(left, key) == At(right, key)
    {
      KeyOfBoth(a, b, c, key);
      if key in a && key in b.entries && key in c.entries {
        var x, y, z := a[key], b.entries[key], c.entries[key];
        if x.Table? && y.Table? && z.Table? { AssociatesExactly(x.entries, y, z); }
        AssociatesAtMeaning(x, y, z);
      }
    }
    if left != right && Associates(a, b.entries, c) { SameEntries(left, right); }
  }

  lemma KeyOfBoth(a: Entries, b: Value, c: Value, key: string)
    requires b.Table? && c.Table?
    ensures At(Merge(Merge(a, b), c), key) ==
            MergeAt(MergeAt(At(a, key), At(b.entries, key)), At(c.entries, key))
    ensures At(Merge(a, Table(Merge(b.entries, c))), key) ==
            MergeAt(At(a, key), MergeAt(At(b.entries, key), At(c.entries, key)))
  {
    MergeMeaning(a, b, key);
    MergeMeaning(Merge(a, b), c, key);
    MergeMeaning(b.entries, c, key);
    MergeMeaning(a, Table(Merge(b.entries, c)), key);
  }

  /** No `false` meets a table, and each path is a table in all the configs that have it or in none. */
  predicate Uniform(a: Entries, b: Entries, c: Value)
    requires c.Table?
    decreases c
  {
    forall key | key in a && key in b && key in c.entries ::
      && a[key].Table? == b[key].Table? == c.entries[key].Table?
      && (a[key].Table? ==> Uniform(a[key].entries, b[key].entries, c.entries[key]))
  }

  /** The documented way of using it is on the safe side: the merges are equal. */
  lemma UniformIsAssociative(a: Entries, b: Value, c: Value)
    requires b.Table? && c.Table? && Uniform(a, b.entries, c)
    ensures Merge(Merge(a, b), c) == Merge(a, Table(Merge(b.entries, c)))
  {
    UniformAssociates(a, b.entries, c);
    AssociatesExactly(a, b, c);
  }

  lemma {:induction false} UniformAssociates(a: Entries, b: Entries, c: Value)
    requires c.Table? && Uniform(a, b, c)
    ensures Associates(a, b, c)
    decreases c
  {
    forall key | key in a && key in b && key in c.entries ensures AssociatesAt(a[key], b[key], c.entries[key]) {
      if a[key].Table? { UniformAssociates(a[key].entries, b[key].entries, c.entries[key]); }
    }
  }

  /** It is not associative: deleting a table twice leaves a literal `false` behind. */
  lemma DeletedTwice()
    ensures var a, b := map["web" := Table(map[])], Table(map["web" := False]);
            && Merge(Merge(a, b), b) == map["web" := False]
            && Merge(a, Table(Merge(b.entries, b))) == map[]
  {
    var a, b := map["web" := Table(map[])], Table(map["web" := False]);
    assert Merge(a, b) == map[];
  }
}
