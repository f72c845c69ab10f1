/** A test directory seen as the list of its file names, and the ids its
    numeric file stems occupy. */
module TestDir {
  import opened Ci
  import opened Paths
  import opened Util

  /** The id a file occupies: its stem parsed as an `i64`, if it parses. */
  function StemId(name: string): (r: Option<int>)
    ensures r.Some? ==> I64Min <= r.value <= I64Max
  {
    ParseI64(FileStem(name))
  }

  /** A hidden file (one whose name starts with '.') never takes an id:
      its stem keeps the leading dot. */
  lemma HiddenTakesNoId(name: string)
    requires name != [] && name[0] == '.'
    ensures StemId(name).None?
  {
    var stem := FileStem(name);
    assert stem[0] == '.';
    DottedIsNoId(stem, 0);
  }

  /** The stems of `names` that parse as integers, in listing order; every
      other file name is skipped. */
  function UsedIds(names: seq<string>): (ids: seq<int>)
    ensures |ids| <= |names|
    ensures forall v :: v in ids <==> exists n :: n in names && StemId(n) == Some(v)
  {
    if names == [] then []
    else
      var rest := UsedIds(names[1..]);
      assert forall n :: n in names <==> n == names[0] || n in names[1..];
      match StemId(names[0])
      case Some(v) => [v] + rest
      case None => rest
  }

  /** The stem id of each name, in listing order. */
  function Stems(names: seq<string>): (vs: seq<Option<int>>)
    ensures |vs| == |names| && forall i :: 0 <= i < |names| ==> vs[i] == StemId(names[i])
  {
    seq(|names|, i requires 0 <= i < |names| => StemId(names[i]))
  }

  /** A possible id, as a set. */
  function IdOf(v: Option<int>): set<int> {
    if v.Some? then {v.value} else {}
  }

  /** The ids present among `vs`. */
  function Ids(vs: seq<Option<int>>): set<int> {
    if vs == [] then {} else IdOf(vs[0]) + Ids(vs[1..])
  }

  /** The set of ids taken in a directory listing. */
  function TakenIds(names: seq<string>): set<int> {
    Ids(Stems(names))
  }

  lemma {:induction false} IdsAppend(a: seq<Option<int>>, b: seq<Option<int>>)
    ensures Ids(a + b) == Ids(a) + Ids(b)
  {
    if a == [] {
      assert a + b == b;
    } else {
      assert (a + b)[1..] == a[1..] + b;
      IdsAppend(a[1..], b);
    }
  }

  /** The taken ids are exactly the values `UsedIds` lists. */
  lemma {:induction false} TakenIdsAreUsedIds(names: seq<string>)
    ensures TakenIds(names) == set v | v in UsedIds(names)
  {
    if names != [] {
      TakenIdsAreUsedIds(names[1..]);
      assert Stems(names)[1..] == Stems(names[1..]);
    }
  }

  lemma TakenIdsAppend(a: seq<string>, b: seq<string>)
    ensures TakenIds(a + b) == TakenIds(a) + TakenIds(b)
  {
    var joined, parts := Stems(a + b), Stems(a) + Stems(b);
    forall i | 0 <= i < |joined|
      ensures joined[i] == parts[i]
    {
      if i < |a| {
        assert (a + b)[i] == a[i];
      } else {
        assert (a + b)[i] == b[i - |a|];
      }
    }
    assert joined == parts;
    IdsAppend(Stems(a), Stems(b));
  }

  /** Extending a sequence of possible ids by one adds that one. */
  lemma IdsSnoc(vs: seq<Option<int>>, i: nat)
    requires i < |vs|
    ensures Ids(vs[..i + 1]) == Ids(vs[..i]) + IdOf(vs[i])
  {
    IdsAppend(vs[..i], [vs[i]]);
    assert [vs[i]][1..] == [];
    assert vs[..i + 1] == vs[..i] + [vs[i]];
  }

  /** A file the test code writes: its name within the directory and its
      contents. */
  datatype FileWrite = FileWrite(name: string, contents: string)

  /** The two files that make up test `id`: `<id>.in` and `<id>.out`. */
  function TestFiles(id: int, input: string, desired: string): (w: seq<FileWrite>)
    ensures |w| == 2 && w[0].contents == input && w[1].contents == desired
  {
    [FileWrite(IdString(id) + ".in", input), FileWrite(IdString(id) + ".out", desired)]
  }

  /** Both files of test `id` have the id as their stem. */
  lemma TestFilesStems(id: int, input: string, desired: string)
    ensures var w := TestFiles(id, input, desired);
      StemId(w[0].name) == StemId(w[1].name) == ParseI64(IdString(id))
    ensures var w := TestFiles(id, input, desired);
      FileStem(w[0].name) == FileStem(w[1].name) == IdString(id)
  {
    NoDotIn();
    NoDotOut();
    IdFileStem(id, "in");
    IdFileStem(id, "out");
    assert IdString(id) + "." + "in" == IdString(id) + ".in";
    assert IdString(id) + "." + "out" == IdString(id) + ".out";
  }

  /** The two files of test `id` take exactly that id. */
  lemma PairTakesId(id: int, input: string, desired: string)
    requires I64Min <= id <= I64Max
    ensures var w := TestFiles(id, input, desired);
      TakenIds([w[0].name, w[1].name]) == {id}
  {
    var w := TestFiles(id, input, desired);
    TestFilesIds(id, input, desired);
    TakenIdsPair(w[0].name, w[1].name);
  }

  lemma TakenIdsPair(a: string, b: string)
    ensures TakenIds([a, b]) == IdOf(StemId(a)) + IdOf(StemId(b))
  {
    var vs := Stems([a, b]);
    assert vs == [StemId(a), StemId(b)];
    assert vs[1..] == [StemId(b)] && vs[1..][1..] == [];
    assert Ids(vs[1..]) == IdOf(StemId(b));
  }

  lemma TestFilesIds(id: int, input: string, desired: string)
    requires I64Min <= id <= I64Max
    ensures var w := TestFiles(id, input, desired);
      StemId(w[0].name) == Some(id) && StemId(w[1].name) == Some(id)
  {
    ParseIdString(id);
    TestFilesStems(id, input, desired);
  }

  /** Writing the pair for a freshly allocated id adds exactly that id to
      the directory's taken ids, so the next allocation picks another. */
  lemma TestFilesTakeId(names: seq<string>, id: int, input: string, desired: string)
    requires IsMexFrom(1, TakenIds(names), id) && id <= I64Max
    ensures var w := TestFiles(id, input, desired);
      TakenIds(names + [w[0].name, w[1].name]) == TakenIds(names) + {id}
    ensures var w := TestFiles(id, input, desired);
      forall r :: IsMexFrom(1, TakenIds(names + [w[0].name, w[1].name]), r) ==> r != id
  {
    var w := TestFiles(id, input, desired);
    PairTakesId(id, input, desired);
    TakenIdsAppend(names, [w[0].name, w[1].name]);
  }

  /** `add` (through `unused_test_id`) and `add_test_input` (through
      `mex(1, used)`) allocate the same id for the same directory. */
  lemma AllocationsAgree(names: seq<string>, id: int)
    requires IsMexFrom(1, TakenIds(names), id)
    ensures Mex(1, UsedIds(names)) == id
  {
    TakenIdsAreUsedIds(names);
    MexUnique(1, TakenIds(names), Mex(1, UsedIds(names)), id);
  }
}
