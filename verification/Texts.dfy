/** Bytes, and cutting strings. */
module Texts {
  import opened Wrappers

  type Byte = x: int | 0 <= x < 256

  type Bytes = seq<Byte>

  /** The text before the first `sep` and the text after it. */
  function Partition(line: string, sep: char): (r: Option<(string, string)>)
    ensures r.None? <==> sep !in line
    ensures r.Some? ==> sep !in r.value.0 && line == r.value.0 + [sep] + r.value.1
  {
    if |line| == 0 then None
    else if line[0] == sep then Some(([], line[1..]))
    else match Partition(line[1..], sep)
      case None => None
      case Some(p) => Some(([line[0]] + p.0, p.1))
  }

  /** That describes the cut completely. */
  lemma {:induction false} PartitionIs(a: string, sep: char, b: string)
    requires sep !in a
    ensures Partition(a + [sep] + b, sep) == Some((a, b))
  {
    var line := a + [sep] + b;
    if |a| == 0 {
      assert line[1..] == b;
    } else {
      assert line[1..] == a[1..] + [sep] + b;
      PartitionIs(a[1..], sep, b);
      assert line[0] == a[0] && a[0] in a;
      assert [a[0]] + a[1..] == a;
    }
  }
}
