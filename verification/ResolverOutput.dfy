/** What a resolver script printed, read as a map from names to paths (`parse_output` in
    orchestrator/resolvers.py). */
module ResolverOutput {
  import opened Wrappers
  import opened Names
  import opened Texts

  datatype ParseError = Unparseable(at: nat) | Unknown(name: string) | Twice(name: string) | Missing(name: string)

  function StripLeft(s: string, space: char -> bool): (r: string)
    ensures |r| <= |s| && (|r| > 0 ==> !space(r[0]))
  {
    if |s| > 0 && space(s[0]) then StripLeft(s[1..], space) else s
  }

  function StripRight(s: string, space: char -> bool): (r: string)
    ensures |r| <= |s| && r <= s && (|r| > 0 ==> !space(r[|r| - 1]))
  {
    if |s| > 0 && space(s[|s| - 1]) then StripRight(s[..|s| - 1], space) else s
  }

  function Strip(s: string, space: char -> bool): string {
    StripRight(StripLeft(s, space), space)
  }

  /** `a` and the same with white space around it. */
  ghost predicate Padded(s: string, a: string, space: char -> bool) {
    exists left, right {:trigger left + a + right} :: s == left + a + right &&
      (forall c | c in left :: space(c)) && forall c | c in right :: space(c)
  }

  lemma {:induction false} StripLeftMeaning(s: string, space: char -> bool) returns (left: string)
    ensures s == left + StripLeft(s, space) && forall c | c in left :: space(c)
  {
    if |s| > 0 && space(s[0]) {
      var rest := StripLeftMeaning(s[1..], space);
      left := [s[0]] + rest;
      assert s == [s[0]] + s[1..];
    } else {
      left := [];
    }
  }

  lemma {:induction false} StripRightMeaning(s: string, space: char -> bool) returns (right: string)
    ensures s == StripRight(s, space) + right && forall c | c in right :: space(c)
  {
    if |s| > 0 && space(s[|s| - 1]) {
      var rest := StripRightMeaning(s[..|s| - 1], space);
      right := rest + [s[|s| - 1]];
      assert s == s[..|s| - 1] + [s[|s| - 1]];
    } else {
      right := [];
    }
  }

  /** Stripping takes the white space around a text, all of it and nothing else. */
  lemma StripMeaning(s: string, space: char -> bool)
    ensures Padded(s, Strip(s, space), space)
    ensures var t := Strip(s, space); |t| > 0 ==> !space(t[0]) && !space(t[|t| - 1])
  {
    var left := StripLeftMeaning(s, space);
    var right := StripRightMeaning(StripLeft(s, space), space);
    assert s == left + Strip(s, space) + right;
  }

  /** A line is an entry exactly if it has an equals sign with something other than white space on both sides of the
      first one, and then those texts without the white space around them are the name and the path. */
  lemma EntryExactly(line: string, space: char -> bool, key: string, value: string)
    ensures Entry(line, space) == Some((key, value)) <==>
              key != [] && value != [] &&
              exists a, b :: Splits(line, a, b) && key == Strip(a, space) && value == Strip(b, space)
  {
    match Partition(line, '=')
    case None =>
      forall a, b ensures !Splits(line, a, b) {
        if Splits(line, a, b) {
          PartitionIs(a, '=', b);
          assert false;
        }
      }
    case Some(p) =>
      assert Splits(line, p.0, p.1);
      forall a, b | Splits(line, a, b) ensures (a, b) == p { PartitionIs(a, '=', b); }
  }

  /** The line cut at its first equals sign. */
  predicate Splits(line: string, a: string, b: string) {
    '=' !in a && line == a + "=" + b
  }

  /** A well-formed line's name and path. */
  function Entry(line: string, space: char -> bool): Option<(string, string)> {
    match Partition(line, '=')
    case None => None
    case Some(p) =>
      var key, value := Strip(p.0, space), Strip(p.1, space);
      if |key| == 0 || |value| == 0 then None else Some((key, value))
  }

  predicate Bare(promised: seq<string>, lines: seq<string>) {
    |promised| == 1 && |lines| == 1 && '=' !in lines[0]
  }

  /** One line as read: a name and its path, or nothing. */
  type Item = Option<(string, string)>

  function Items(lines: seq<string>, space: char -> bool): (items: seq<Item>)
    ensures |items| == |lines|
    ensures forall i | 0 <= i < |lines| :: items[i] == Entry(lines[i], space)
  {
    seq(|lines|, i requires 0 <= i < |lines| => Entry(lines[i], space))
  }

  predicate Gives(item: Item, out: map<string, string>) {
    item.Some? && item.value.0 in out && out[item.value.0] == item.value.1
  }

  predicate Naming(item: Item, name: string) {
    item.Some? && item.value.0 == name
  }

  predicate Given(name: string, items: seq<Item>) {
    exists i | 0 <= i < |items| :: Naming(items[i], name)
  }

  /** `out` is what the items say: as many items as names, each gives a name its path, and every name is given. */
  ghost predicate Reading(promised: set<string>, items: seq<Item>, out: map<string, string>) {
    && out.Keys == promised && |items| == |out|
    && (forall i | 0 <= i < |items| :: Gives(items[i], out))
    && (forall name | name in out :: Given(name, items))
  }

  lemma ReadingUnique(promised: set<string>, items: seq<Item>, a: map<string, string>, b: map<string, string>)
    requires Reading(promised, items, a) && Reading(promised, items, b)
    ensures a == b
  {
    forall name | name in a ensures a[name] == b[name] {
      assert Given(name, items);
      var i :| 0 <= i < |items| && Naming(items[i], name);
      assert Gives(items[i], a) && Gives(items[i], b);
    }
  }

  predicate SameItems(a: seq<Item>, b: seq<Item>) {
    |a| == |b| && (forall i | 0 <= i < |a| :: a[i] in b) && forall i | 0 <= i < |b| :: b[i] in a
  }

  lemma ReadingUnordered(promised: set<string>, a: seq<Item>, b: seq<Item>, out: map<string, string>)
    requires SameItems(a, b) && Reading(promised, a, out)
    ensures Reading(promised, b, out)
  {
    forall i | 0 <= i < |b| ensures Gives(b[i], out) {
      var j :| 0 <= j < |a| && a[j] == b[i];
      assert Gives(a[j], out);
    }
    forall name | name in out ensures Given(name, b) {
      assert Given(name, a);
      var j :| 0 <= j < |a| && Naming(a[j], name);
      assert a[j] in b;
      var i :| 0 <= i < |b| && b[i] == a[j];
      assert Naming(b[i], name);
    }
  }

  /** What the script's output says. */
  ghost predicate Answers(promised: seq<string>, space: char -> bool, lines: seq<string>, out: map<string, string>) {
    if Bare(promised, lines) then out == map[promised[0] := lines[0]]
    else Reading(Elements(promised), Items(lines, space), out)
  }

  /** Output has at most one reading. */
  lemma OneReading(promised: seq<string>, space: char -> bool, lines: seq<string>, a: map<string, string>,
                   b: map<string, string>)
    requires Answers(promised, space, lines, a) && Answers(promised, space, lines, b)
    ensures a == b
  {
    if !Bare(promised, lines) { ReadingUnique(Elements(promised), Items(lines, space), a, b); }
  }

  lemma SameMembers(a: seq<string>, b: seq<string>, i: nat)
    requires multiset(a) == multiset(b) && i < |a|
    ensures |a| == |b| && a[i] in b
  {
    assert |a| == |multiset(a)| == |multiset(b)| == |b|;
    assert a[i] in multiset(b);
  }

  lemma SameOrderless(a: seq<string>, b: seq<string>, space: char -> bool)
    requires multiset(a) == multiset(b)
    ensures SameItems(Items(a, space), Items(b, space))
  {
    assert |a| == |multiset(a)| == |multiset(b)| == |b|;
    var p, q := Items(a, space), Items(b, space);
    forall i | 0 <= i < |p| ensures p[i] in q {
      SameMembers(a, b, i);
      var j :| 0 <= j < |b| && b[j] == a[i];
      assert q[j] == p[i];
    }
    forall i | 0 <= i < |q| ensures q[i] in p {
      SameMembers(b, a, i);
      var j :| 0 <= j < |a| && a[j] == b[i];
      assert p[j] == q[i];
    }
  }

  /** The order of the lines carries no meaning. */
  lemma OrderCarriesNoMeaning(promised: seq<string>, space: char -> bool, lines: seq<string>, shuffled: seq<string>,
                              out: map<string, string>)
    requires multiset(lines) == multiset(shuffled)
    ensures Answers(promised, space, lines, out) == Answers(promised, space, shuffled, out)
  {
    assert |lines| == |multiset(lines)| == |multiset(shuffled)| == |shuffled|;
    if |lines| == 1 {
      SameMembers(shuffled, lines, 0);
      assert shuffled == lines;
    } else {
      SameOrderless(lines, shuffled, space);
      if Reading(Elements(promised), Items(lines, space), out) {
        ReadingUnordered(Elements(promised), Items(lines, space), Items(shuffled, space), out);
      }
      if Reading(Elements(promised), Items(shuffled, space), out) {
        ReadingUnordered(Elements(promised), Items(shuffled, space), Items(lines, space), out);
      }
    }
  }

  /** The names the items give. */
  function TitlesIn(items: seq<Item>): (names: set<string>)
    ensures |names| <= |items|
  {
    if |items| == 0 then {}
    else
      var rest := TitlesIn(items[..|items| - 1]);
      match items[|items| - 1]
      case None => rest
      case Some(e) => rest + {e.0}
  }

  lemma {:induction false} TitlesInMeaning(items: seq<Item>, name: string)
    ensures name in TitlesIn(items) <==> Given(name, items)
  {
    if |items| == 0 {
    } else {
      var rest := items[..|items| - 1];
      TitlesInMeaning(rest, name);
      if Given(name, items) {
        var i :| 0 <= i < |items| && Naming(items[i], name);
        if i < |rest| { assert Naming(rest[i], name); }
      }
      if Given(name, rest) {
        var i :| 0 <= i < |rest| && Naming(rest[i], name);
        assert Naming(items[i], name);
      }
      if Naming(items[|items| - 1], name) { assert Given(name, items); }
    }
  }

  /** A name given twice leaves fewer names than items. */
  lemma {:induction false} TwiceIsShort(items: seq<Item>, i: nat, j: nat, name: string)
    requires i < j < |items| && Naming(items[i], name) && Naming(items[j], name)
    ensures |TitlesIn(items)| < |items|
  {
    var rest := items[..|items| - 1];
    if j < |rest| {
      TwiceIsShort(rest, i, j, name);
    } else {
      TitlesInMeaning(rest, name);
      assert Naming(rest[i], name);
      assert TitlesIn(rest) + {name} == TitlesIn(rest);
    }
  }

  /** What each refusal says of the items. */
  ghost predicate Refused(promised: set<string>, items: seq<Item>, e: ParseError) {
    match e
    case Unparseable(at) => at < |items| && items[at].None?
    case Unknown(name) => name !in promised && Given(name, items)
    case Twice(name) => exists i, j | 0 <= i < j < |items| :: Naming(items[i], name) && Naming(items[j], name)
    case Missing(name) => name in promised && !Given(name, items)
  }

  lemma ReadingTitles(promised: set<string>, items: seq<Item>, out: map<string, string>)
    requires Reading(promised, items, out)
    ensures TitlesIn(items) == promised
  {
    forall n ensures n in TitlesIn(items) <==> n in out.Keys {
      TitlesInMeaning(items, n);
      if Given(n, items) {
        var k :| 0 <= k < |items| && Naming(items[k], n);
        assert Gives(items[k], out);
      }
    }
  }

  lemma RefusedHasNoReading(promised: set<string>, items: seq<Item>, e: ParseError, out: map<string, string>)
    requires Refused(promised, items, e)
    ensures !Reading(promised, items, out)
  {
    if e.Twice? {
      var i, j :| 0 <= i < j < |items| && Naming(items[i], e.name) && Naming(items[j], e.name);
      TwiceIsShort(items, i, j, e.name);
    }
    if Reading(promised, items, out) { ReadingTitles(promised, items, out); }
  }

  /** The line is blank or a comment. */
  predicate Ignored(line: string, space: char -> bool) {
    Strip(line, space) == [] || StripLeft(line, space)[..1] == "#"
  }

  /** The lines that carry meaning, stripped. */
  function Meaningful(raw: seq<string>, space: char -> bool): seq<string> {
    if |raw| == 0 then []
    else
      var rest := Meaningful(raw[..|raw| - 1], space);
      if Ignored(raw[|raw| - 1], space) then rest else rest + [Strip(raw[|raw| - 1], space)]
  }

  lemma BlankExactly(line: string, space: char -> bool)
    ensures Strip(line, space) == [] <==> StripLeft(line, space) == []
    ensures StripLeft(line, space) == [] <==> forall c | c in line :: space(c)
  {
    var rest := StripLeft(line, space);
    var left := StripLeftMeaning(line, space);
    var right := StripRightMeaning(rest, space);
    if |rest| > 0 {
      assert rest[0] in rest && rest[0] in line;
      if StripRight(rest, space) == [] { assert false; }
    }
  }

  /** A line is ignored exactly if it is white space only or the first other character is a hash. */
  lemma IgnoredExactly(line: string, space: char -> bool)
    ensures Ignored(line, space) <==> (forall c | c in line :: space(c)) || HashFirst(line, space)
  {
    BlankExactly(line, space);
    var left := StripLeftMeaning(line, space);
    var rest := StripLeft(line, space);
    if |rest| > 0 {
      assert line[|left|] == rest[0];
      forall k | 0 <= k < |left| ensures space(line[k]) { assert line[k] in left; }
    }
    if HashFirst(line, space) {
      var i :| 0 <= i < |line| && line[i] == '#' && !space('#') && forall k | 0 <= k < i :: space(line[k]);
      assert !space(line[i]) && line[i] == (left + rest)[i];
    }
  }

  predicate HashFirst(line: string, space: char -> bool) {
    exists i | 0 <= i < |line| ::
      line[i] == '#' && !space('#') && forall k | 0 <= k < i :: space(line[k])
  }

  /** Line by line: an ignored line adds nothing, any other adds itself, stripped. */
  lemma {:induction false} MeaningfulJoins(a: seq<string>, b: seq<string>, space: char -> bool)
    ensures Meaningful(a + b, space) == Meaningful(a, space) + Meaningful(b, space)
    ensures |a| == 1 ==> Meaningful(a, space) == if Ignored(a[0], space) then [] else [Strip(a[0], space)]
  {
    if |b| == 0 {
      assert a + b == a;
    } else {
      MeaningfulJoins(a, b[..|b| - 1], space);
      assert (a + b)[..|a + b| - 1] == a + b[..|b| - 1];
    }
    if |a| == 1 { assert a[..0] == []; }
  }

  /** Half-way through the lines. */
  ghost predicate ReadTo(promised: set<string>, items: seq<Item>, i: int, out: map<string, string>) {
    0 <= i <= |items| && out.Keys <= promised && Reading(out.Keys, items[..i], out)
  }

  lemma GivesMore(done: seq<Item>, out: map<string, string>, key: string, value: string)
    requires key !in out && forall i | 0 <= i < |done| :: Gives(done[i], out)
    ensures forall i | 0 <= i < |done| :: Gives(done[i], out[key := value])
  {
    forall i | 0 <= i < |done| ensures Gives(done[i], out[key := value]) { assert Gives(done[i], out); }
  }

  lemma GivenMore(done: seq<Item>, item: Item, name: string)
    requires Given(name, done) || Naming(item, name)
    ensures Given(name, done + [item])
  {
    if Given(name, done) {
      var k :| 0 <= k < |done| && Naming(done[k], name);
      assert Naming((done + [item])[k], name);
    } else {
      assert Naming((done + [item])[|done|], name);
    }
  }

  lemma ReadingMore(done: seq<Item>, out: map<string, string>, key: string, value: string)
    requires Reading(out.Keys, done, out) && key !in out
    ensures Reading(out.Keys + {key}, done + [Some((key, value))], out[key := value])
  {
    var item, out' := Some((key, value)), out[key := value];
    GivesMore(done, out, key, value);
    assert out'.Keys == out.Keys + {key};
    forall name | name in out' ensures Given(name, done + [item]) {
      assert name in out || Naming(item, name);
      GivenMore(done, item, name);
    }
  }

  lemma ReadOne(promised: set<string>, items: seq<Item>, i: int, out: map<string, string>)
    requires ReadTo(promised, items, i, out) && i < |items| && items[i].Some?
    requires items[i].value.0 in promised && items[i].value.0 !in out
    ensures ReadTo(promised, items, i + 1, out[items[i].value.0 := items[i].value.1])
  {
    var e := items[i].value;
    ReadingMore(items[..i], out, e.0, e.1);
    assert items[..i + 1] == items[..i] + [Some((e.0, e.1))];
    assert out[e.0 := e.1].Keys == out.Keys + {e.0};
  }

  lemma SeenTwice(promised: set<string>, items: seq<Item>, i: int, out: map<string, string>, name: string)
    requires ReadTo(promised, items, i, out) && i < |items| && Naming(items[i], name) && name in out
    ensures Refused(promised, items, Twice(name))
  {
    assert Given(name, items[..i]);
    var k :| 0 <= k < i && Naming(items[..i][k], name);
    assert Naming(items[k], name);
  }

  /** `parse_output`: it accepts exactly the output that has a reading, and returns that reading. */
  method ParseOutput(promised: seq<string>, raw: seq<string>, space: char -> bool)
      returns (r: Result<map<string, string>, ParseError>)
    ensures r.Ok? ==> Answers(promised, space, Meaningful(raw, space), r.value)
    ensures r.Err? ==> forall out :: !Answers(promised, space, Meaningful(raw, space), out)
    ensures r.Err? ==> Refused(Elements(promised), Items(Meaningful(raw, space), space), r.error)
  {
    var lines := KeepMeaningful(raw, space);
    if Bare(promised, lines) { return Ok(map[promised[0] := lines[0]]); }
    r := ReadLines(promised, lines, space);
    if r.Err? {
      forall out ensures !Answers(promised, space, lines, out) {
        RefusedHasNoReading(Elements(promised), Items(lines, space), r.error, out);
      }
    }
  }

  method KeepMeaningful(raw: seq<string>, space: char -> bool) returns (lines: seq<string>)
    ensures lines == Meaningful(raw, space)
  {
    lines := [];
    var i := 0;
    while i < |raw|
      invariant 0 <= i <= |raw| && lines == Meaningful(raw[..i], space)
    {
      assert raw[..i + 1][..i] == raw[..i];
      if !Ignored(raw[i], space) { lines := lines + [Strip(raw[i], space)]; }
      i := i + 1;
    }
    assert raw[..i] == raw;
  }

  method ReadLines(promised: seq<string>, lines: seq<string>, space: char -> bool)
      returns (r: Result<map<string, string>, ParseError>)
    ensures r.Ok? ==> Reading(Elements(promised), Items(lines, space), r.value)
    ensures r.Err? ==> Refused(Elements(promised), Items(lines, space), r.error)
  {
    ghost var items := Items(lines, space);
    var out: map<string, string> := map[];
    var i := 0;
    while i < |lines|
      invariant ReadTo(Elements(promised), items, i, out)
    {
      var entry := Entry(lines[i], space);
      assert entry == items[i];
      var e := Refusal(promised, i, entry, out);
      if e.Some? {
        RefusalIsRight(promised, items, i, out, e.value);
        return Err(e.value);
      }
      ReadOne(Elements(promised), items, i, out);
      out := out[entry.value.0 := entry.value.1];
      i := i + 1;
    }
    var missing := FirstMissing(promised, out);
    ReadAll(promised, items, out, missing);
    r := if missing.None? then Ok(out) else Err(Missing(missing.value));
  }

  /** Why a line is refused, if it is. */
  function Refusal(promised: seq<string>, i: nat, entry: Item, out: map<string, string>): Option<ParseError> {
    if entry.None? then Some(Unparseable(i))
    else if entry.value.0 !in promised then Some(Unknown(entry.value.0))
    else if entry.value.0 in out then Some(Twice(entry.value.0))
    else None
  }

  lemma RefusalIsRight(promised: seq<string>, items: seq<Item>, i: nat, out: map<string, string>, e: ParseError)
    requires ReadTo(Elements(promised), items, i, out) && i < |items|
    requires Refusal(promised, i, items[i], out) == Some(e)
    ensures Refused(Elements(promised), items, e)
  {
    if e.Unknown? || e.Twice? { assert Naming(items[i], e.name); }
    if e.Twice? { SeenTwice(Elements(promised), items, i, out, e.name); }
  }

  lemma ReadAll(promised: seq<string>, items: seq<Item>, out: map<string, string>, missing: Option<string>)
    requires ReadTo(Elements(promised), items, |items|, out)
    requires if missing.Some? then missing.value in promised && missing.value !in out else Elements(promised) <= out.Keys
    ensures missing.None? ==> Reading(Elements(promised), items, out)
    ensures missing.Some? ==> Refused(Elements(promised), items, Missing(missing.value))
  {
    assert items[..|items|] == items;
    if missing.Some? {
      forall k | 0 <= k < |items| ensures !Naming(items[k], missing.value) { assert Gives(items[k], out); }
    }
  }

  method FirstMissing(promised: seq<string>, out: map<string, string>) returns (r: Option<string>)
    ensures r.Some? ==> r.value in promised && r.value !in out
    ensures r.None? ==> Elements(promised) <= out.Keys
  {
    var i := 0;
    while i < |promised|
      invariant 0 <= i <= |promised| && forall k | 0 <= k < i :: promised[k] in out
    {
      if promised[i] !in out { return Some(promised[i]); }
      i := i + 1;
    }
    r := None;
  }
}
