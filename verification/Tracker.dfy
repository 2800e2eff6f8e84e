/** One issue of the in-memory issue tracker and its change history (modules/issuetracker/mock.py). */
module Tracker {
  import opened Wrappers

  type Value = string

  /** The fields an update may name. */
  datatype Data = Data(scalars: map<string, Value>, lists: map<string, seq<Value>>)

  /** One recorded change: a scalar's old and new value, a value added to a list, or one removed from it. */
  datatype Change = Change(field: string, was: Option<Value>, now: Option<Value>)

  datatype Update = Update(stamp: int, changes: seq<Change>, comment: nat)

  datatype Comment = Comment(number: nat, text: string)

  datatype Relation = Relation(target: int, kind: string)

  datatype Issue = Issue(data: Data, comments: seq<Comment>, updates: seq<Update>, relations: seq<Relation>,
                         created: int, modified: int, description: string)

  datatype Request = Request(sets: seq<(string, Value)>, add: seq<(string, seq<Value>)>,
                             remove: seq<(string, seq<Value>)>, comment: Option<string>)

  const SCALARS := {"status", "priority", "severity", "title", "type", "assignee", "verifier"}

  const LISTS := {"ccs", "hotlistIds", "blockedByIssueIds"}

  predicate WellFormed(d: Data) {
    d.scalars.Keys == SCALARS && d.lists.Keys == LISTS
  }

  // ---- Requests --------------------------------------------------------------------------------------

  /** A modify under way: the fields so far, the changes so far, and whether a field was refused. */
  datatype Work = Work(data: Data, changes: seq<Change>, refused: bool)

  function SetOne(w: Work, field: string, value: Value): Work {
    if w.refused then w
    else if field !in w.data.scalars then w.(refused := true)
    else if w.data.scalars[field] == value then w
    else Work(w.data.(scalars := w.data.scalars[field := value]),
              w.changes + [Change(field, Some(w.data.scalars[field]), Some(value))], false)
  }

  function SetAll(w: Work, sets: seq<(string, Value)>): Work {
    if |sets| == 0 then w else SetOne(SetAll(w, sets[..|sets| - 1]), sets[|sets| - 1].0, sets[|sets| - 1].1)
  }

  /** The list without the first occurrence of the value. */
  function Without(list: seq<Value>, value: Value): seq<Value> {
    if |list| == 0 then [] else if list[0] == value then list[1..] else [list[0]] + Without(list[1..], value)
  }

  function EditOne(w: Work, field: string, value: Value, removing: bool): Work
    requires field in w.data.lists
  {
    var list := w.data.lists[field];
    if removing && value in list then
      Work(w.data.(lists := w.data.lists[field := Without(list, value)]),
           w.changes + [Change(field, Some(value), None)], w.refused)
    else if !removing && value !in list then
      Work(w.data.(lists := w.data.lists[field := list + [value]]),
           w.changes + [Change(field, None, Some(value))], w.refused)
    else w
  }

  function EditValues(w: Work, field: string, values: seq<Value>, removing: bool): (w': Work)
    requires field in w.data.lists
    ensures field in w'.data.lists
  {
    if |values| == 0 then w
    else EditOne(EditValues(w, field, values[..|values| - 1], removing), field, values[|values| - 1], removing)
  }

  function EditField(w: Work, field: string, values: seq<Value>, removing: bool): Work {
    if w.refused then w
    else if field !in w.data.lists then w.(refused := true)
    else EditValues(w, field, values, removing)
  }

  function EditAll(w: Work, deltas: seq<(string, seq<Value>)>, removing: bool): Work {
    if |deltas| == 0 then w
    else EditField(EditAll(w, deltas[..|deltas| - 1], removing), deltas[|deltas| - 1].0, deltas[|deltas| - 1].1, removing)
  }

  /** Everything a modify does to the fields. */
  function Edit(d: Data, req: Request): Work {
    EditAll(EditAll(SetAll(Work(d, [], false), req.sets), req.add, false), req.remove, true)
  }

  /** `_touch`: the clock, but always later than before. */
  function Touch(modified: int, clock: int): (m: int)
    ensures m > modified && m >= clock && (clock > modified ==> m == clock)
  {
    if clock > modified then clock else modified + 1
  }

  function AddComment(i: Issue, text: string, clock: int): Issue {
    i.(comments := i.comments + [Comment(|i.comments| + 1, text)], modified := Touch(i.modified, clock))
  }

  /** `modify_issue`: when a field is refused, the edits made before it stay. */
  function Modify(i: Issue, req: Request, clock: int, later: int): Issue {
    var w := Edit(i.data, req);
    var edited := i.(data := w.data);
    if w.refused then edited
    else
      var said := if req.comment.Some? then AddComment(edited, req.comment.value, clock) else edited;
      if w.changes == [] && req.comment.None? then said
      else
        var stamp := Touch(said.modified, later);
        said.(modified := stamp,
              updates := said.updates + [Update(stamp, w.changes, if req.comment.Some? then |said.comments| else 0)])
  }

  function EditComment(i: Issue, number: nat, text: string, clock: int): Issue {
    if !(1 <= number <= |i.comments|) then i
    else i.(comments := i.comments[number - 1 := i.comments[number - 1].(text := text)],
            description := if number == 1 then text else i.description, modified := Touch(i.modified, clock))
  }

  /** One comment has the new text; it keeps its number, and the others stay as they are. */
  predicate EditedAt(before: seq<Comment>, now: seq<Comment>, number: nat, text: string) {
    && |now| == |before| && 1 <= number <= |before|
    && now[number - 1].text == text && now[number - 1].number == before[number - 1].number
    && forall k | 0 <= k < |before| && k != number - 1 :: now[k] == before[k]
  }

  function Relate(i: Issue, r: Relation, clock: int): Issue {
    if r in i.relations then i
    else i.(relations := i.relations + [r], modified := Touch(i.modified, clock))
  }

  function AddHotlist(i: Issue, id: Value, clock: int): Issue {
    if "hotlistIds" !in i.data.lists || id in i.data.lists["hotlistIds"] then i
    else i.(data := i.data.(lists := i.data.lists["hotlistIds" := i.data.lists["hotlistIds"] + [id]]),
            modified := Touch(i.modified, clock))
  }

  function DropHotlist(i: Issue, id: Value, clock: int): Issue {
    if "hotlistIds" !in i.data.lists || id !in i.data.lists["hotlistIds"] then i
    else i.(data := i.data.(lists := i.data.lists["hotlistIds" := Without(i.data.lists["hotlistIds"], id)]),
            modified := Touch(i.modified, clock))
  }

  datatype Call =
    | Modifies(req: Request, clock: int, later: int)
    | Comments(text: string, clock: int)
    | EditsComment(number: nat, text: string, clock: int)
    | Relates(r: Relation, clock: int)
    | AddsHotlist(id: Value, clock: int)
    | DropsHotlist(id: Value, clock: int)

  function Step(i: Issue, c: Call): Issue {
    match c
    case Modifies(req, clock, later) => Modify(i, req, clock, later)
    case Comments(text, clock) => AddComment(i, text, clock)
    case EditsComment(number, text, clock) => EditComment(i, number, text, clock)
    case Relates(r, clock) => Relate(i, r, clock)
    case AddsHotlist(id, clock) => AddHotlist(i, id, clock)
    case DropsHotlist(id, clock) => DropHotlist(i, id, clock)
  }

  function After(i: Issue, calls: seq<Call>): Issue {
    if |calls| == 0 then i else Step(After(i, calls[..|calls| - 1]), calls[|calls| - 1])
  }

  /** `_insert`: comment 1 is the description. */
  function Created(scalars: map<string, Value>, description: string, stamp: int): Issue {
    Issue(Data(scalars, map["ccs" := [], "hotlistIds" := [], "blockedByIssueIds" := []]),
          [Comment(1, description)], [], [], stamp, stamp, description)
  }

  // ---- Replaying the history ---------------------------------------------------------------------------

  /** One change applied to the fields; nothing if it does not fit them. */
  function Redo(d: Data, c: Change): Option<Data> {
    if c.was.Some? && c.now.Some? then
      if c.field in d.scalars && d.scalars[c.field] == c.was.value && c.was != c.now
      then Some(d.(scalars := d.scalars[c.field := c.now.value])) else None
    else if c.field !in d.lists then None
    else if c.now.Some? && c.now.value !in d.lists[c.field] then
      Some(d.(lists := d.lists[c.field := d.lists[c.field] + [c.now.value]]))
    else if c.was.Some? && c.was.value in d.lists[c.field] then
      Some(d.(lists := d.lists[c.field := Without(d.lists[c.field], c.was.value)]))
    else None
  }

  function Replay(d: Data, changes: seq<Change>): Option<Data> {
    if |changes| == 0 then Some(d)
    else match Replay(d, changes[..|changes| - 1])
      case None => None
      case Some(e) => Redo(e, changes[|changes| - 1])
  }

  /** The changes of the whole history, oldest first. */
  function Changes(updates: seq<Update>): seq<Change> {
    if |updates| == 0 then [] else Changes(updates[..|updates| - 1]) + updates[|updates| - 1].changes
  }

  /** What the history is about: every field but `hotlistIds`, which other calls change without recording it. */
  function Recorded(d: Data): Data {
    d.(lists := d.lists - {"hotlistIds"})
  }

  function Visible(changes: seq<Change>): seq<Change> {
    if |changes| == 0 then []
    else
      var rest := Visible(changes[..|changes| - 1]);
      if changes[|changes| - 1].field == "hotlistIds" then rest else rest + [changes[|changes| - 1]]
  }

  lemma ReplayMore(d: Data, changes: seq<Change>, c: Change, e: Data)
    requires Replay(d, changes) == Some(e)
    ensures Replay(d, changes + [c]) == Redo(e, c)
  {
    assert (changes + [c])[..|changes|] == changes;
  }

  lemma {:induction false} ReplayOn(d: Data, a: seq<Change>, b: seq<Change>, e: Data)
    requires Replay(d, a) == Some(e)
    ensures Replay(d, a + b) == Replay(e, b)
  {
    if |b| == 0 {
      assert a + b == a;
    } else {
      ReplayOn(d, a, b[..|b| - 1], e);
      assert (a + b)[..|a + b| - 1] == a + b[..|b| - 1];
    }
  }

  lemma {:induction false} VisibleOn(a: seq<Change>, b: seq<Change>)
    ensures Visible(a + b) == Visible(a) + Visible(b)
  {
    if |b| == 0 {
      assert a + b == a;
    } else {
      VisibleOn(a, b[..|b| - 1]);
      assert (a + b)[..|a + b| - 1] == a + b[..|b| - 1];
    }
  }

  lemma RedoRecorded(d: Data, c: Change, e: Data)
    requires "hotlistIds" !in d.scalars && c.field != "hotlistIds" && Redo(d, c) == Some(e)
    ensures Redo(Recorded(d), c) == Some(Recorded(e))
  {
    assert Redo(Recorded(d), c).value.lists == Recorded(e).lists;
  }

  /** Leaving the hotlists out of the changes and of the fields leaves the rest of a replay as it is. */
  lemma {:induction false} ReplayVisible(d: Data, changes: seq<Change>, e: Data)
    requires "hotlistIds" !in d.scalars && Replay(d, changes) == Some(e)
    ensures Replay(Recorded(d), Visible(changes)) == Some(Recorded(e)) && e.scalars.Keys == d.scalars.Keys
  {
    if |changes| == 0 {
    } else {
      var rest, c := changes[..|changes| - 1], changes[|changes| - 1];
      var mid := Replay(d, rest).value;
      ReplayVisible(d, rest, mid);
      if c.field == "hotlistIds" {
        assert Recorded(e).lists == Recorded(mid).lists;
      } else {
        RedoRecorded(mid, c, e);
        ReplayMore(Recorded(d), Visible(rest), c, Recorded(mid));
      }
    }
  }

  // ---- A request's own changes -------------------------------------------------------------------------

  predicate Faithful(d: Data, w: Work) {
    Replay(d, w.changes) == Some(w.data) && w.data.scalars.Keys == d.scalars.Keys && w.data.lists.Keys == d.lists.Keys
  }

  lemma SetOneFaithful(d: Data, w: Work, field: string, value: Value)
    requires Faithful(d, w)
    ensures Faithful(d, SetOne(w, field, value))
  {
    var w' := SetOne(w, field, value);
    if w'.changes != w.changes { ReplayMore(d, w.changes, w'.changes[|w.changes|], w.data); }
  }

  lemma {:induction false} SetAllFaithful(d: Data, w: Work, sets: seq<(string, Value)>)
    requires Faithful(d, w)
    ensures Faithful(d, SetAll(w, sets))
    ensures SetAll(w, sets).refused <==> w.refused || exists k | 0 <= k < |sets| :: sets[k].0 !in d.scalars
  {
    if |sets| == 0 {
    } else {
      SetAllFaithful(d, w, sets[..|sets| - 1]);
      SetOneFaithful(d, SetAll(w, sets[..|sets| - 1]), sets[|sets| - 1].0, sets[|sets| - 1].1);
    }
  }

  lemma EditOneFaithful(d: Data, w: Work, field: string, value: Value, removing: bool)
    requires Faithful(d, w) && field in w.data.lists
    ensures Faithful(d, EditOne(w, field, value, removing)) && EditOne(w, field, value, removing).refused == w.refused
  {
    var w' := EditOne(w, field, value, removing);
    if w'.changes != w.changes { ReplayMore(d, w.changes, w'.changes[|w.changes|], w.data); }
  }

  lemma {:induction false} EditValuesFaithful(d: Data, w: Work, field: string, values: seq<Value>, removing: bool)
    requires Faithful(d, w) && field in w.data.lists
    ensures Faithful(d, EditValues(w, field, values, removing))
    ensures EditValues(w, field, values, removing).refused == w.refused
  {
    if |values| == 0 {
    } else {
      EditValuesFaithful(d, w, field, values[..|values| - 1], removing);
      EditOneFaithful(d, EditValues(w, field, values[..|values| - 1], removing), field, values[|values| - 1], removing);
    }
  }

  lemma {:induction false} EditAllFaithful(d: Data, w: Work, deltas: seq<(string, seq<Value>)>, removing: bool)
    requires Faithful(d, w)
    ensures Faithful(d, EditAll(w, deltas, removing))
    ensures EditAll(w, deltas, removing).refused <==>
            w.refused || exists k | 0 <= k < |deltas| :: deltas[k].0 !in d.lists
  {
    if |deltas| == 0 {
    } else {
      var rest, last := deltas[..|deltas| - 1], deltas[|deltas| - 1];
      EditAllFaithful(d, w, rest, removing);
      var mid := EditAll(w, rest, removing);
      if !mid.refused && last.0 in mid.data.lists { EditValuesFaithful(d, mid, last.0, last.1, removing); }
    }
  }

  /** Every field the request names is one the surface admits. */
  predicate Admits(req: Request) {
    && (forall k | 0 <= k < |req.sets| :: req.sets[k].0 in SCALARS)
    && (forall k | 0 <= k < |req.add| :: req.add[k].0 in LISTS)
    && (forall k | 0 <= k < |req.remove| :: req.remove[k].0 in LISTS)
  }

  /** A request's changes say exactly what it did to the fields; it is refused exactly if it names some other field. */
  lemma EditFaithful(d: Data, req: Request)
    requires WellFormed(d)
    ensures Faithful(d, Edit(d, req)) && (Edit(d, req).refused <==> !Admits(req))
  {
    var w := Work(d, [], false);
    SetAllFaithful(d, w, req.sets);
    EditAllFaithful(d, SetAll(w, req.sets), req.add, false);
    EditAllFaithful(d, EditAll(SetAll(w, req.sets), req.add, false), req.remove, true);
  }

  // ---- What the edits leave in a list ------------------------------------------------------------------

  predicate Single(list: seq<Value>) {
    forall i, j | 0 <= i < j < |list| :: list[i] != list[j]
  }

  /** No list holds a value twice. */
  predicate NoRepeats(d: Data) {
    forall f | f in d.lists :: Single(d.lists[f])
  }

  /** One occurrence goes, the first, and the rest keeps its order. */
  lemma {:induction false} WithoutFirst(list: seq<Value>, value: Value) returns (i: nat)
    ensures value !in list ==> Without(list, value) == list
    ensures value in list ==> i < |list| && list[i] == value && value !in list[..i]
    ensures value in list ==> Without(list, value) == list[..i] + list[i + 1..]
  {
    i := 0;
    if |list| > 0 && list[0] != value {
      var rest := WithoutFirst(list[1..], value);
      i := rest + 1;
      if value in list {
        assert list[..i] == [list[0]] + list[1..][..rest] && list[i + 1..] == list[1..][rest + 1..];
      } else {
        assert [list[0]] + list[1..] == list;
      }
    }
  }

  /** Adding and removing a hotlist: the id is in the list after, or is not, and the others stay as they were. */
  lemma HotlistGives(i: Issue, id: Value, v: Value, clock: int)
    requires WellFormed(i.data) && NoRepeats(i.data)
    ensures var i' := AddHotlist(i, id, clock);
            && i' == i.(data := i'.data, modified := i'.modified)
            && i'.data == i.data.(lists := i.data.lists["hotlistIds" := i'.data.lists["hotlistIds"]])
            && (v in i'.data.lists["hotlistIds"] <==> v in i.data.lists["hotlistIds"] || v == id)
    ensures var i' := DropHotlist(i, id, clock);
            && i' == i.(data := i'.data, modified := i'.modified)
            && i'.data == i.data.(lists := i.data.lists["hotlistIds" := i'.data.lists["hotlistIds"]])
            && (v in i'.data.lists["hotlistIds"] <==> v in i.data.lists["hotlistIds"] && v != id)
  {
    var list := i.data.lists["hotlistIds"];
    assert i.data.lists["hotlistIds" := list] == i.data.lists;
    WithoutMembers(list, id, v);
    WithoutSingle(list, id);
  }

  lemma {:induction false} WithoutMembers(list: seq<Value>, value: Value, v: Value)
    requires Single(list)
    ensures v in Without(list, value) <==> v in list && v != value
  {
    if |list| == 0 {
    } else {
      assert Single(list[1..]) && (v in list <==> v == list[0] || v in list[1..]);
      WithoutMembers(list[1..], value, v);
    }
  }

  lemma {:induction false} WithoutSingle(list: seq<Value>, value: Value)
    requires Single(list)
    ensures Single(Without(list, value))
  {
    if |list| == 0 || list[0] == value {
    } else {
      assert Single(list[1..]);
      WithoutSingle(list[1..], value);
      WithoutMembers(list[1..], value, list[0]);
      assert list[0] !in Without(list[1..], value);
    }
  }

  /** Removing a value that is not among the first ones leaves those where they are. */
  lemma {:induction false} WithoutKeeps(list: seq<Value>, value: Value, first: seq<Value>)
    requires first <= list && value !in first
    ensures first <= Without(list, value)
  {
    if |first| == 0 {
    } else {
      assert value != first[0] && first[1..] <= list[1..] && value !in first[1..];
      WithoutKeeps(list[1..], value, first[1..]);
    }
  }

  /** What adding or removing leaves in one list, as far as one value goes. */
  predicate Holds(was: seq<Value>, now: seq<Value>, v: Value, named: bool, removing: bool) {
    v in now <==> if removing then v in was && !named else v in was || named
  }

  lemma EditOneMembers(w: Work, field: string, value: Value, removing: bool, f: string, v: Value)
    requires NoRepeats(w.data) && field in w.data.lists && f in w.data.lists
    ensures var w' := EditOne(w, field, value, removing);
            && NoRepeats(w'.data) && w'.data.scalars == w.data.scalars && w'.data.lists.Keys == w.data.lists.Keys
            && Holds(w.data.lists[f], w'.data.lists[f], v, f == field && v == value, removing)
            && (!removing ==> w.data.lists[f] <= w'.data.lists[f])
  {
    assert Single(w.data.lists[field]) && Single(w.data.lists[f]);
    if removing {
      WithoutSingle(w.data.lists[field], value);
      WithoutMembers(w.data.lists[field], value, v);
    }
  }

  lemma {:induction false} EditValuesMembers(w: Work, field: string, values: seq<Value>, removing: bool, f: string,
                                             v: Value)
    requires NoRepeats(w.data) && field in w.data.lists && f in w.data.lists
    ensures var w' := EditValues(w, field, values, removing);
            && NoRepeats(w'.data) && w'.data.scalars == w.data.scalars && w'.data.lists.Keys == w.data.lists.Keys
            && Holds(w.data.lists[f], w'.data.lists[f], v, f == field && v in values, removing)
            && (!removing ==> w.data.lists[f] <= w'.data.lists[f])
  {
    if |values| == 0 {
    } else {
      EditValuesMembers(w, field, values[..|values| - 1], removing, f, v);
      EditOneMembers(EditValues(w, field, values[..|values| - 1], removing), field, values[|values| - 1], removing, f, v);
    }
  }

  /** The value is to be added to, or removed from, this list. */
  predicate Named(deltas: seq<(string, seq<Value>)>, f: string, v: Value) {
    exists k | 0 <= k < |deltas| :: deltas[k].0 == f && v in deltas[k].1
  }

  predicate AllIn<V(==)>(pairs: seq<(string, V)>, fields: set<string>) {
    forall k | 0 <= k < |pairs| :: pairs[k].0 in fields
  }

  lemma {:induction false} EditAllMembers(w: Work, deltas: seq<(string, seq<Value>)>, removing: bool, f: string, v: Value)
    requires !w.refused && NoRepeats(w.data) && f in w.data.lists && AllIn(deltas, w.data.lists.Keys)
    ensures var w' := EditAll(w, deltas, removing);
            && !w'.refused && NoRepeats(w'.data) && w'.data.scalars == w.data.scalars
            && w'.data.lists.Keys == w.data.lists.Keys
            && Holds(w.data.lists[f], w'.data.lists[f], v, Named(deltas, f, v), removing)
            && (!removing ==> w.data.lists[f] <= w'.data.lists[f])
  {
    if |deltas| == 0 {
    } else {
      var rest, last := deltas[..|deltas| - 1], deltas[|deltas| - 1];
      EditAllMembers(w, rest, removing, f, v);
      EditValuesMembers(EditAll(w, rest, removing), last.0, last.1, removing, f, v);
      EditValuesRefuses(EditAll(w, rest, removing), last.0, last.1, removing);
      NamedLast(deltas, f, v);
    }
  }

  lemma NamedLast(deltas: seq<(string, seq<Value>)>, f: string, v: Value)
    requires |deltas| > 0
    ensures var last := deltas[|deltas| - 1];
            Named(deltas, f, v) <==> Named(deltas[..|deltas| - 1], f, v) || (last.0 == f && v in last.1)
  {
    var rest := deltas[..|deltas| - 1];
    if Named(rest, f, v) {
      var k :| 0 <= k < |rest| && rest[k].0 == f && v in rest[k].1;
      assert deltas[k] == rest[k];
    }
    if Named(deltas, f, v) {
      var k :| 0 <= k < |deltas| && deltas[k].0 == f && v in deltas[k].1;
      if k < |rest| { assert rest[k] == deltas[k]; }
    }
  }

  lemma {:induction false} EditValuesRefuses(w: Work, field: string, values: seq<Value>, removing: bool)
    requires field in w.data.lists
    ensures EditValues(w, field, values, removing).refused == w.refused
  {
    if |values| == 0 {
    } else {
      EditValuesRefuses(w, field, values[..|values| - 1], removing);
    }
  }

  lemma {:induction false} RemovedValuesKeep(w: Work, field: string, values: seq<Value>, f: string, first: seq<Value>)
    requires field in w.data.lists && f in w.data.lists && first <= w.data.lists[f]
    requires field == f ==> forall v | v in values :: v !in first
    ensures var w' := EditValues(w, field, values, true); f in w'.data.lists && first <= w'.data.lists[f]
  {
    if |values| == 0 {
    } else {
      RemovedValuesKeep(w, field, values[..|values| - 1], f, first);
      var mid := EditValues(w, field, values[..|values| - 1], true);
      if field == f { WithoutKeeps(mid.data.lists[f], values[|values| - 1], first); }
    }
  }

  lemma {:induction false} RemovedKeep(w: Work, deltas: seq<(string, seq<Value>)>, f: string, first: seq<Value>)
    requires f in w.data.lists && first <= w.data.lists[f]
    requires forall v | v in first :: !Named(deltas, f, v)
    ensures var w' := EditAll(w, deltas, true); f in w'.data.lists && first <= w'.data.lists[f]
  {
    if |deltas| == 0 {
    } else {
      var rest, last := deltas[..|deltas| - 1], deltas[|deltas| - 1];
      forall v | v in first ensures !Named(rest, f, v) && !(last.0 == f && v in last.1) { NamedLast(deltas, f, v); }
      RemovedKeep(w, rest, f, first);
      var mid := EditAll(w, rest, true);
      if last.0 in mid.data.lists { RemovedValuesKeep(mid, last.0, last.1, f, first); }
    }
  }

  // ---- What every call keeps ---------------------------------------------------------------------------

  /** The history, folded over the fields at creation, gives the fields as they are. */
  predicate Replays(created: Data, i: Issue) {
    Replay(Recorded(created), Visible(Changes(i.updates))) == Some(Recorded(i.data))
  }

  predicate Stamped(i: Issue) {
    && i.created <= i.modified
    && (forall k | 0 <= k < |i.updates| :: i.created < i.updates[k].stamp <= i.modified)
    && forall k, l | 0 <= k < l < |i.updates| :: i.updates[k].stamp < i.updates[l].stamp
  }

  predicate Numbered(i: Issue) {
    && |i.comments| > 0 && i.description == i.comments[0].text
    && (forall k | 0 <= k < |i.comments| :: i.comments[k].number == k + 1)
    && forall k | 0 <= k < |i.updates| :: i.updates[k].comment <= |i.comments|
  }

  predicate Sound(created: Data, i: Issue) {
    WellFormed(i.data) && NoRepeats(i.data) && Replays(created, i) && Stamped(i) && Numbered(i)
  }

  lemma UpdateReplays(created: Data, i: Issue, d: Data, u: Update)
    requires WellFormed(i.data) && Replays(created, i) && Replay(i.data, u.changes) == Some(d)
    ensures Replays(created, i.(data := d, updates := i.updates + [u]))
  {
    assert (i.updates + [u])[..|i.updates|] == i.updates;
    ReplayVisible(i.data, u.changes, d);
    VisibleOn(Changes(i.updates), u.changes);
    ReplayOn(Recorded(created), Visible(Changes(i.updates)), Visible(u.changes), Recorded(i.data));
  }

  lemma ModifyStampsAndNumbers(i: Issue, req: Request, clock: int, later: int)
    requires Stamped(i) && Numbered(i)
    ensures Stamped(Modify(i, req, clock, later)) && Numbered(Modify(i, req, clock, later))
  {
  }

  lemma ModifyRecords(i: Issue, req: Request, clock: int, later: int)
    requires !Edit(i.data, req).refused
    ensures var w, i' := Edit(i.data, req), Modify(i, req, clock, later);
            && i'.data == w.data
            && if w.changes == [] && req.comment.None? then i'.updates == i.updates
               else exists u: Update :: u.changes == w.changes && i'.updates == i.updates + [u] &&
                      u.stamp == i'.modified > i.modified && u.comment == if req.comment.Some? then |i'.comments| else 0
    ensures var i' := Modify(i, req, clock, later);
            i'.comments == i.comments + if req.comment.Some? then [Comment(|i.comments| + 1, req.comment.value)] else []
  {
  }

  /** What an admitted request leaves in one list, as far as one value goes. */
  lemma EditGives(d: Data, req: Request, f: string, v: Value)
    requires WellFormed(d) && NoRepeats(d) && Admits(req) && f in LISTS
    ensures var d' := Edit(d, req).data;
            && WellFormed(d') && NoRepeats(d') && d'.scalars == SetAll(Work(d, [], false), req.sets).data.scalars
            && (v in d'.lists[f] <==> (v in d.lists[f] || Named(req.add, f, v)) && !Named(req.remove, f, v))
  {
    var w := Work(d, [], false);
    SetAllFaithful(d, w, req.sets);
    var set1 := SetAll(w, req.sets);
    SetsKeepLists(w, req.sets);
    EditAllMembers(set1, req.add, false, f, v);
    EditAllMembers(EditAll(set1, req.add, false), req.remove, true, f, v);
  }

  lemma {:induction false} SetsKeepLists(w: Work, sets: seq<(string, Value)>)
    ensures SetAll(w, sets).data.lists == w.data.lists
  {
    if |sets| == 0 {
    } else {
      SetsKeepLists(w, sets[..|sets| - 1]);
    }
  }

  /** An admitted modify records exactly what it did. */
  lemma ModifyKeeps(created: Data, i: Issue, req: Request, clock: int, later: int)
    requires Sound(created, i) && Admits(req)
    ensures Sound(created, Modify(i, req, clock, later))
  {
    var w := Edit(i.data, req);
    EditFaithful(i.data, req);
    EditGives(i.data, req, "ccs", "");
    ModifyStampsAndNumbers(i, req, clock, later);
    ModifyRecords(i, req, clock, later);
    if w.changes == [] && req.comment.None? {
      assert w.data == i.data;
    } else {
      var u: Update :| u.changes == w.changes && Modify(i, req, clock, later).updates == i.updates + [u];
      UpdateReplays(created, i, w.data, u);
    }
  }

  lemma HotlistsKeep(created: Data, i: Issue, list: seq<Value>, m: int)
    requires Sound(created, i) && m >= i.modified && Single(list)
    ensures Sound(created, i.(data := i.data.(lists := i.data.lists["hotlistIds" := list]), modified := m))
  {
    assert Recorded(i.data.(lists := i.data.lists["hotlistIds" := list])).lists == Recorded(i.data).lists;
  }

  lemma HotlistCallsKeep(created: Data, i: Issue, id: Value, clock: int)
    requires Sound(created, i)
    ensures Sound(created, AddHotlist(i, id, clock)) && Sound(created, DropHotlist(i, id, clock))
  {
    var list := i.data.lists["hotlistIds"];
    assert Single(list);
    if id in list {
      WithoutSingle(list, id);
      HotlistsKeep(created, i, Without(list, id), Touch(i.modified, clock));
    } else {
      assert Single(list + [id]);
      HotlistsKeep(created, i, list + [id], Touch(i.modified, clock));
    }
  }

  lemma StepKeeps(created: Data, i: Issue, c: Call)
    requires Sound(created, i) && (c.Modifies? ==> Admits(c.req))
    ensures Sound(created, Step(i, c))
  {
    match c
    case Modifies(req, clock, later) => ModifyKeeps(created, i, req, clock, later);
    case Comments(text, clock) =>
    case EditsComment(number, text, clock) =>
    case Relates(r, clock) =>
    case AddsHotlist(id, clock) => HotlistCallsKeep(created, i, id, clock);
    case DropsHotlist(id, clock) => HotlistCallsKeep(created, i, id, clock);
  }

  /** Over any run of calls on an issue, at any clock readings: the history replays to the fields as they are,
      update stamps strictly increase, comments are numbered 1 to n, and the description is comment 1. */
  lemma {:induction false} HistoryReplays(scalars: map<string, Value>, description: string, stamp: int, calls: seq<Call>)
    requires scalars.Keys == SCALARS
    requires forall k | 0 <= k < |calls| :: calls[k].Modifies? ==> Admits(calls[k].req)
    ensures var i := Created(scalars, description, stamp); Sound(i.data, After(i, calls))
  {
    if |calls| == 0 {
    } else {
      var i := Created(scalars, description, stamp);
      HistoryReplays(scalars, description, stamp, calls[..|calls| - 1]);
      StepKeeps(i.data, After(i, calls[..|calls| - 1]), calls[|calls| - 1]);
    }
  }

  // ---- When a refused request is harmless ----------------------------------------------------------------

  /** The pairs before the first one whose field is not among these. */
  function Known<V(==)>(pairs: seq<(string, V)>, fields: set<string>): (known: seq<(string, V)>)
    ensures known <= pairs && AllIn(known, fields)
    ensures |known| < |pairs| ==> pairs[|known|].0 !in fields
  {
    if |pairs| == 0 then []
    else
      var rest := Known(pairs[..|pairs| - 1], fields);
      if |rest| == |pairs| - 1 && pairs[|pairs| - 1].0 in fields then pairs else rest
  }

  /** The part of a request that is carried out: everything before the first field that is not admitted. */
  function Reached(req: Request): (done: Request)
    ensures Admits(done) && (Admits(req) ==> done == req.(comment := None))
  {
    var sets, add := Known(req.sets, SCALARS), Known(req.add, LISTS);
    if |sets| < |req.sets| then Request(sets, [], [], None)
    else if |add| < |req.add| then Request(sets, add, [], None)
    else Request(sets, add, Known(req.remove, LISTS), None)
  }

  lemma {:induction false} SetsReached(w: Work, sets: seq<(string, Value)>)
    requires !w.refused
    ensures var known, w' := Known(sets, w.data.scalars.Keys), SetAll(w, sets);
            && w'.data == SetAll(w, known).data && (w'.refused <==> |known| < |sets|)
            && w'.data.scalars.Keys == w.data.scalars.Keys
  {
    if |sets| == 0 {
    } else {
      SetsReached(w, sets[..|sets| - 1]);
    }
  }

  lemma {:induction false} DeltasReached(w: Work, deltas: seq<(string, seq<Value>)>, removing: bool)
    requires !w.refused
    ensures var known, w' := Known(deltas, w.data.lists.Keys), EditAll(w, deltas, removing);
            && w'.data == EditAll(w, known, removing).data && (w'.refused <==> |known| < |deltas|)
            && w'.data.lists.Keys == w.data.lists.Keys
  {
    if |deltas| == 0 {
    } else {
      var rest, last := deltas[..|deltas| - 1], deltas[|deltas| - 1];
      DeltasReached(w, rest, removing);
      var mid := EditAll(w, rest, removing);
      if !mid.refused && last.0 in mid.data.lists {
        EditValuesRefuses(mid, last.0, last.1, removing);
        EditValuesKeys(mid, last.0, last.1, removing);
      }
    }
  }

  lemma {:induction false} EditValuesKeys(w: Work, field: string, values: seq<Value>, removing: bool)
    requires field in w.data.lists
    ensures EditValues(w, field, values, removing).data.lists.Keys == w.data.lists.Keys
  {
    if |values| == 0 {
    } else {
      EditValuesKeys(w, field, values[..|values| - 1], removing);
    }
  }

  /** A request does to the fields what its part before the first refused field does. */
  lemma EditReached(d: Data, req: Request)
    requires WellFormed(d)
    ensures Edit(d, req).data == Edit(d, Reached(req)).data
  {
    var w := Work(d, [], false);
    SetsReached(w, req.sets);
    SetsKeepLists(w, req.sets);
    var set1 := SetAll(w, req.sets);
    if set1.refused {
      RefusedDeltas(set1, req.add, false, 0);
      RefusedDeltas(set1, req.remove, true, 0);
    } else {
      DeltasReached(set1, req.add, false);
      var added := EditAll(set1, req.add, false);
      if added.refused {
        RefusedDeltas(added, req.remove, true, 0);
      } else {
        DeltasReached(added, req.remove, true);
      }
    }
  }

  /** A dictionary: no field is named twice. */
  predicate Keyed(sets: seq<(string, Value)>) {
    forall j, k | 0 <= j < k < |sets| :: sets[j].0 != sets[k].0
  }

  /** Every field is set to the value it has. */
  predicate SetsNothing(d: Data, sets: seq<(string, Value)>) {
    forall k | 0 <= k < |sets| :: sets[k].0 in d.scalars && d.scalars[sets[k].0] == sets[k].1
  }

  /** Nothing in the list is to be removed, and everything to be added is there already or is to be removed again. */
  ghost predicate EditsNothing(list: seq<Value>, req: Request, f: string) {
    && (forall v | v in list :: !Named(req.remove, f, v))
    && forall v | Named(req.add, f, v) :: v in list || Named(req.remove, f, v)
  }

  /** The request sets each field to what it is and leaves each recorded list as it is. */
  ghost predicate WithoutEffect(d: Data, req: Request) {
    && SetsNothing(d, req.sets)
    && forall f | f in d.lists && f != "hotlistIds" :: EditsNothing(d.lists[f], req, f)
  }

  lemma {:induction false} SetsGive(w: Work, sets: seq<(string, Value)>, f: string)
    requires !w.refused && Keyed(sets) && AllIn(sets, w.data.scalars.Keys) && f in w.data.scalars
    ensures var w' := SetAll(w, sets);
            && !w'.refused && w'.data.scalars.Keys == w.data.scalars.Keys
            && (forall k | 0 <= k < |sets| && sets[k].0 == f :: w'.data.scalars[f] == sets[k].1)
            && ((forall k | 0 <= k < |sets| :: sets[k].0 != f) ==> w'.data.scalars[f] == w.data.scalars[f])
  {
    if |sets| == 0 {
    } else {
      var rest := sets[..|sets| - 1];
      SetsGive(w, rest, f);
      forall k | 0 <= k < |sets| && sets[k].0 == f ensures SetAll(w, sets).data.scalars[f] == sets[k].1 {
        if k < |rest| { assert rest[k] == sets[k]; }
      }
    }
  }

  lemma SetsNothingExactly(w: Work, sets: seq<(string, Value)>)
    requires !w.refused && Keyed(sets) && AllIn(sets, w.data.scalars.Keys)
    ensures SetAll(w, sets).data.scalars == w.data.scalars <==> SetsNothing(w.data, sets)
  {
    var w' := SetAll(w, sets);
    SetsReached(w, sets);
    if w'.data.scalars == w.data.scalars {
      forall k | 0 <= k < |sets| ensures w.data.scalars[sets[k].0] == sets[k].1 { SetsGive(w, sets, sets[k].0); }
    }
    if SetsNothing(w.data, sets) {
      forall f | f in w.data.scalars ensures w'.data.scalars[f] == w.data.scalars[f] {
        SetsGive(w, sets, f);
        if k :| 0 <= k < |sets| && sets[k].0 == f { assert w'.data.scalars[f] == sets[k].1; }
      }
      assert w'.data.scalars == w.data.scalars;
    }
  }

  lemma EditsNothingExactly(d: Data, req: Request, f: string)
    requires WellFormed(d) && NoRepeats(d) && Admits(req) && f in LISTS
    ensures f in Edit(d, req).data.lists && (Edit(d, req).data.lists[f] == d.lists[f] <==> EditsNothing(d.lists[f], req, f))
  {
    EditGives(d, req, f, "");
    var was, now := d.lists[f], Edit(d, req).data.lists[f];
    if now == was {
      forall v | v in was ensures !Named(req.remove, f, v) { EditGives(d, req, f, v); }
      forall v | Named(req.add, f, v) ensures v in was || Named(req.remove, f, v) { EditGives(d, req, f, v); }
    }
    if EditsNothing(was, req, f) {
      var w := Work(d, [], false);
      SetAllFaithful(d, w, req.sets);
      SetsKeepLists(w, req.sets);
      EditAllMembers(SetAll(w, req.sets), req.add, false, f, "");
      RemovedKeep(EditAll(SetAll(w, req.sets), req.add, false), req.remove, f, was);
      if |now| > |was| {
        EditGives(d, req, f, now[|was|]);
      }
    }
  }

  /** Exactly when a modify keeps the history true: it names only admitted fields, or everything it asks for before
      the first refused field is without effect: each scalar set to its value, nothing removed that is there, and
      nothing added that is not there, unless the same request removes it again. */
  lemma ReplaysExactly(created: Data, i: Issue, req: Request, clock: int, later: int)
    requires Sound(created, i) && Keyed(req.sets)
    ensures Replays(created, Modify(i, req, clock, later)) <==> Admits(req) || WithoutEffect(i.data, Reached(req))
  {
    EditFaithful(i.data, req);
    if Admits(req) {
      ModifyKeeps(created, i, req, clock, later);
    } else {
      var done := Reached(req);
      EditReached(i.data, req);
      EditGives(i.data, done, "ccs", "");
      SetsNothingExactly(Work(i.data, [], false), done.sets);
      forall f | f in LISTS
        ensures Edit(i.data, done).data.lists[f] == i.data.lists[f] <==> EditsNothing(i.data.lists[f], done, f)
      {
        EditsNothingExactly(i.data, done, f);
      }
      SameRecorded(i.data, Edit(i.data, done).data);
    }
  }

  lemma SameRecorded(d: Data, d': Data)
    requires WellFormed(d) && WellFormed(d')
    ensures Recorded(d') == Recorded(d) <==>
            d'.scalars == d.scalars && forall f | f in d.lists && f != "hotlistIds" :: d'.lists[f] == d.lists[f]
  {
    if Recorded(d') == Recorded(d) {
      forall f | f in d.lists && f != "hotlistIds" ensures d'.lists[f] == d.lists[f] {
        assert Recorded(d').lists[f] == d'.lists[f] && Recorded(d).lists[f] == d.lists[f];
      }
    }
    if d'.scalars == d.scalars && forall f | f in d.lists && f != "hotlistIds" :: d'.lists[f] == d.lists[f] {
      assert Recorded(d').lists == Recorded(d).lists;
    }
  }

  /** A refused request leaves the edits before the refused field behind, unrecorded. */
  lemma RefusedModifyIsUnrecorded(scalars: map<string, Value>)
    requires scalars.Keys == SCALARS && scalars["status"] == "NEW"
    ensures var i := Created(scalars, "", 0); var req := Request([("status", "FIXED"), ("color", "red")], [], [], None);
            && !Replays(i.data, Modify(i, req, 1, 1)) && Modify(i, req, 1, 1).updates == []
            && Modify(i, req, 1, 1).data.scalars == scalars["status" := "FIXED"]
  {
    var i, req := Created(scalars, "", 0), Request([("status", "FIXED"), ("color", "red")], [], [], None);
    var w := Work(i.data, [], false);
    assert req.sets[..1] == [("status", "FIXED")] && req.sets[..1][..0] == [];
    assert SetAll(w, req.sets[..1][..0]) == w;
    assert SetAll(w, req.sets[..1]) == SetOne(w, "status", "FIXED");
    assert SetAll(w, req.sets) == SetOne(SetOne(w, "status", "FIXED"), "color", "red");
    EditFaithful(i.data, req);
  }

  // ---- The hotlists ------------------------------------------------------------------------------------

  /** The history gives every field, `hotlistIds` included. */
  predicate FullyReplays(created: Data, i: Issue) {
    Replay(created, Changes(i.updates)) == Some(i.data)
  }

  /** A hotlist call that has an effect: the id is not yet there, or is there. */
  predicate Unrecorded(i: Issue, c: Call) {
    match c
    case AddsHotlist(id, _) => "hotlistIds" in i.data.lists && id !in i.data.lists["hotlistIds"]
    case DropsHotlist(id, _) => "hotlistIds" in i.data.lists && id in i.data.lists["hotlistIds"]
    case _ => false
  }

  lemma ModifyKeepsAll(created: Data, i: Issue, req: Request, clock: int, later: int)
    requires WellFormed(i.data) && FullyReplays(created, i) && Admits(req)
    ensures FullyReplays(created, Modify(i, req, clock, later))
  {
    var w, i' := Edit(i.data, req), Modify(i, req, clock, later);
    EditFaithful(i.data, req);
    ModifyRecords(i, req, clock, later);
    if i'.updates != i.updates {
      assert i'.updates[..|i.updates|] == i.updates;
      ReplayOn(created, Changes(i.updates), w.changes, i.data);
    }
  }

  lemma {:induction false} WithoutShortens(list: seq<Value>, value: Value)
    requires value in list
    ensures |Without(list, value)| == |list| - 1
  {
    if list[0] == value {
    } else {
      WithoutShortens(list[1..], value);
    }
  }

  /** Exactly when one call keeps the full history true: unless it is a hotlist call that has an effect. */
  lemma KeepsAllExactly(created: Data, i: Issue, c: Call)
    requires WellFormed(i.data) && FullyReplays(created, i) && (c.Modifies? ==> Admits(c.req))
    ensures FullyReplays(created, Step(i, c)) <==> !Unrecorded(i, c)
  {
    match c
    case Modifies(req, clock, later) => ModifyKeepsAll(created, i, req, clock, later);
    case AddsHotlist(id, clock) =>
      if Unrecorded(i, c) { assert |AddHotlist(i, id, clock).data.lists["hotlistIds"]| > |i.data.lists["hotlistIds"]|; }
    case DropsHotlist(id, clock) =>
      if Unrecorded(i, c) { WithoutShortens(i.data.lists["hotlistIds"], id); }
    case Comments(_, _) =>
    case EditsComment(_, _, _) =>
    case Relates(_, _) =>
  }

  /** Over any run of calls: the history gives every field all along exactly if no hotlist call in it has an effect. */
  lemma HotlistsExactly(scalars: map<string, Value>, description: string, stamp: int, calls: seq<Call>)
    requires scalars.Keys == SCALARS
    requires forall k | 0 <= k < |calls| :: calls[k].Modifies? ==> Admits(calls[k].req)
    ensures var i := Created(scalars, description, stamp);
            (forall k | 0 <= k <= |calls| :: FullyReplays(i.data, After(i, calls[..k]))) <==>
            (forall k | 0 <= k < |calls| :: !Unrecorded(After(i, calls[..k]), calls[k]))
  {
    var i := Created(scalars, description, stamp);
    if forall k | 0 <= k <= |calls| :: FullyReplays(i.data, After(i, calls[..k])) {
      forall k | 0 <= k < |calls| ensures !Unrecorded(After(i, calls[..k]), calls[k]) {
        OneMoreCall(scalars, description, stamp, calls, k);
        assert FullyReplays(i.data, After(i, calls[..k])) && FullyReplays(i.data, After(i, calls[..k + 1]));
      }
    }
    if forall k | 0 <= k < |calls| :: !Unrecorded(After(i, calls[..k]), calls[k]) {
      forall k | 0 <= k <= |calls| ensures FullyReplays(i.data, After(i, calls[..k])) {
        HotlistsUntouched(scalars, description, stamp, calls, k);
      }
    }
  }

  lemma OneMoreCall(scalars: map<string, Value>, description: string, stamp: int, calls: seq<Call>, k: nat)
    requires scalars.Keys == SCALARS && k < |calls|
    requires forall k | 0 <= k < |calls| :: calls[k].Modifies? ==> Admits(calls[k].req)
    ensures var i := Created(scalars, description, stamp);
            && After(i, calls[..k + 1]) == Step(After(i, calls[..k]), calls[k])
            && (FullyReplays(i.data, After(i, calls[..k])) ==>
                  (FullyReplays(i.data, After(i, calls[..k + 1])) <==> !Unrecorded(After(i, calls[..k]), calls[k])))
  {
    var i := Created(scalars, description, stamp);
    assert calls[..k + 1][..k] == calls[..k];
    HistoryReplays(scalars, description, stamp, calls[..k]);
    if FullyReplays(i.data, After(i, calls[..k])) { KeepsAllExactly(i.data, After(i, calls[..k]), calls[k]); }
  }

  lemma {:induction false} HotlistsUntouched(scalars: map<string, Value>, description: string, stamp: int,
                                             calls: seq<Call>, k: nat)
    requires scalars.Keys == SCALARS && k <= |calls|
    requires forall k | 0 <= k < |calls| :: calls[k].Modifies? ==> Admits(calls[k].req)
    requires var i := Created(scalars, description, stamp);
             forall k | 0 <= k < |calls| :: !Unrecorded(After(i, calls[..k]), calls[k])
    ensures var i := Created(scalars, description, stamp); FullyReplays(i.data, After(i, calls[..k]))
  {
    if k == 0 {
    } else {
      HotlistsUntouched(scalars, description, stamp, calls, k - 1);
      OneMoreCall(scalars, description, stamp, calls, k - 1);
    }
  }

  /** Such a call. */
  lemma HotlistsAreUnrecorded(scalars: map<string, Value>)
    requires scalars.Keys == SCALARS
    ensures var i := Created(scalars, "", 0); var i' := AddHotlist(i, "7", 1);
            i'.updates == [] && Replay(i.data, Changes(i'.updates)) != Some(i'.data)
  {
    var i := Created(scalars, "", 0);
    assert AddHotlist(i, "7", 1).data.lists["hotlistIds"] == ["7"];
  }

  // ---- The driver --------------------------------------------------------------------------------------

  class IssueRecord {
    var scalars: map<string, Value>
    var lists: map<string, seq<Value>>
    var comments: seq<Comment>
    var updates: seq<Update>
    var relations: seq<Relation>
    const created: int
    var modified: int
    var description: string

    function State(): Issue
      reads this
    {
      Issue(Data(scalars, lists), comments, updates, relations, created, modified, description)
    }

    constructor (fields: map<string, Value>, text: string, stamp: int)
      ensures State() == Created(fields, text, stamp)
    {
      scalars, lists := fields, map["ccs" := [], "hotlistIds" := [], "blockedByIssueIds" := []];
      comments, updates, relations, description := [Comment(1, text)], [], [], text;
      created, modified := stamp, stamp;
    }

    method DoTouch(clock: int)
      modifies this`modified
      ensures modified == Touch(old(modified), clock)
    {
      modified := if clock > modified then clock else modified + 1;
    }

    /** The scalar half of a modify, up to a field that is refused. */
    method SetScalars(sets: seq<(string, Value)>) returns (changes: seq<Change>, ok: bool)
      modifies this`scalars
      ensures Work(Data(scalars, lists), changes, !ok) == SetAll(Work(old(State()).data, [], false), sets)
    {
      ghost var w := Work(Data(scalars, lists), [], false);
      changes, ok := [], true;
      var k := 0;
      while k < |sets|
        invariant 0 <= k <= |sets| && ok
        invariant Work(Data(scalars, lists), changes, false) == SetAll(w, sets[..k])
      {
        assert sets[..k + 1][..k] == sets[..k];
        var (field, value) := sets[k];
        if field !in scalars {
          RefusedSets(w, sets, k + 1);
          return changes, false;
        }
        if scalars[field] != value {
          changes := changes + [Change(field, Some(scalars[field]), Some(value))];
          scalars := scalars[field := value];
        }
        k := k + 1;
      }
      assert sets[..k] == sets;
    }

    /** One list of a modify. */
    method EditList(field: string, values: seq<Value>, removing: bool, before: seq<Change>) returns (changes: seq<Change>)
      requires field in lists
      modifies this`lists
      ensures Work(Data(scalars, lists), changes, false) ==
              EditValues(Work(old(State()).data, before, false), field, values, removing)
    {
      ghost var w := Work(Data(scalars, lists), before, false);
      changes := before;
      var k := 0;
      while k < |values|
        invariant 0 <= k <= |values| && field in lists
        invariant Work(Data(scalars, lists), changes, false) == EditValues(w, field, values[..k], removing)
      {
        assert values[..k + 1][..k] == values[..k];
        var value := values[k];
        if removing && value in lists[field] {
          lists := lists[field := Without(lists[field], value)];
          changes := changes + [Change(field, Some(value), None)];
        } else if !removing && value !in lists[field] {
          lists := lists[field := lists[field] + [value]];
          changes := changes + [Change(field, None, Some(value))];
        }
        k := k + 1;
      }
      assert values[..k] == values;
    }

    method EditLists(deltas: seq<(string, seq<Value>)>, removing: bool, before: seq<Change>)
        returns (changes: seq<Change>, ok: bool)
      modifies this`lists
      ensures Work(Data(scalars, lists), changes, !ok) == EditAll(Work(old(State()).data, before, false), deltas, removing)
    {
      ghost var w := Work(Data(scalars, lists), before, false);
      changes, ok := before, true;
      var k := 0;
      while k < |deltas|
        invariant 0 <= k <= |deltas| && ok
        invariant Work(Data(scalars, lists), changes, false) == EditAll(w, deltas[..k], removing)
      {
        assert deltas[..k + 1][..k] == deltas[..k];
        var (field, values) := deltas[k];
        if field !in lists {
          RefusedDeltas(w, deltas, removing, k + 1);
          return changes, false;
        }
        changes := EditList(field, values, removing, changes);
        k := k + 1;
      }
      assert deltas[..k] == deltas;
    }

    /** `modify_issue` */
    method ModifyIssue(req: Request, clock: int, later: int) returns (ok: bool)
      modifies this
      ensures State() == Modify(old(State()), req, clock, later) && (ok <==> !Edit(old(State()).data, req).refused)
    {
      ghost var start := State();
      var changes: seq<Change>;
      changes, ok := SetScalars(req.sets);
      RefusedEdit(start.data, req);
      if !ok { return; }
      changes, ok := EditLists(req.add, false, changes);
      if !ok { return; }
      changes, ok := EditLists(req.remove, true, changes);
      if !ok { return; }
      var number := 0;
      if req.comment.Some? { number := CreateComment(req.comment.value, clock); }
      if changes != [] || number != 0 {
        DoTouch(later);
        updates := updates + [Update(modified, changes, number)];
      }
    }

    /** `create_comment` */
    method CreateComment(text: string, clock: int) returns (number: nat)
      modifies this`comments, this`modified
      ensures State() == AddComment(old(State()), text, clock) && number == |comments|
      ensures comments[..number - 1] == old(comments) && comments[number - 1] == Comment(number, text)
    {
      number := |comments| + 1;
      comments := comments + [Comment(number, text)];
      DoTouch(clock);
    }

    /** `update_comment` */
    method UpdateComment(number: nat, text: string, clock: int) returns (ok: bool)
      modifies this`comments, this`description, this`modified
      ensures State() == EditComment(old(State()), number, text, clock) && (ok <==> 1 <= number <= |old(comments)|)
      ensures ok ==> EditedAt(old(comments), comments, number, text) && modified > old(modified)
      ensures !ok ==> State() == old(State())
    {
      if !(1 <= number <= |comments|) { return false; }
      comments := comments[number - 1 := comments[number - 1].(text := text)];
      if number == 1 { description := text; }
      DoTouch(clock);
      ok := true;
    }

    /** `create_relationship`, once the target is known to exist. */
    method CreateRelationship(r: Relation, clock: int) returns (ok: bool)
      modifies this`relations, this`modified
      ensures State() == Relate(old(State()), r, clock) && (ok <==> r !in old(relations))
    {
      if r in relations { return false; }
      relations := relations + [r];
      DoTouch(clock);
      ok := true;
    }

    /** `create_hotlist_entry` */
    method CreateHotlistEntry(id: Value, clock: int)
      modifies this`lists, this`modified
      ensures State() == AddHotlist(old(State()), id, clock)
    {
      if "hotlistIds" in lists && id !in lists["hotlistIds"] {
        lists := lists["hotlistIds" := lists["hotlistIds"] + [id]];
        DoTouch(clock);
      }
    }

    /** `delete_hotlist_entry` */
    method DeleteHotlistEntry(id: Value, clock: int) returns (ok: bool)
      modifies this`lists, this`modified
      ensures State() == DropHotlist(old(State()), id, clock)
    {
      ok := "hotlistIds" in lists && id in lists["hotlistIds"];
      if ok {
        lists := lists["hotlistIds" := Without(lists["hotlistIds"], id)];
        DoTouch(clock);
      }
    }
  }

  /** Once refused, a request goes no further. */
  lemma {:induction false} RefusedSets(w: Work, sets: seq<(string, Value)>, n: nat)
    requires n <= |sets| && SetAll(w, sets[..n]).refused
    ensures SetAll(w, sets) == SetAll(w, sets[..n])
    decreases |sets|
  {
    if n < |sets| {
      var shorter := sets[..|sets| - 1];
      assert shorter[..n] == sets[..n];
      RefusedSets(w, shorter, n);
    } else {
      assert sets[..n] == sets;
    }
  }

  lemma {:induction false} RefusedDeltas(w: Work, deltas: seq<(string, seq<Value>)>, removing: bool, n: nat)
    requires n <= |deltas| && EditAll(w, deltas[..n], removing).refused
    ensures EditAll(w, deltas, removing) == EditAll(w, deltas[..n], removing)
    decreases |deltas|
  {
    if n < |deltas| {
      var shorter := deltas[..|deltas| - 1];
      assert shorter[..n] == deltas[..n];
      RefusedDeltas(w, shorter, removing, n);
    } else {
      assert deltas[..n] == deltas;
    }
  }

  lemma RefusedEdit(d: Data, req: Request)
    ensures var w := SetAll(Work(d, [], false), req.sets);
            && (w.refused ==> Edit(d, req) == w)
            && (EditAll(w, req.add, false).refused ==> Edit(d, req) == EditAll(w, req.add, false))
  {
    var w := SetAll(Work(d, [], false), req.sets);
    if w.refused { RefusedDeltas(w, req.add, false, 0); }
    var v := EditAll(w, req.add, false);
    if v.refused { RefusedDeltas(v, req.remove, true, 0); }
  }
}
