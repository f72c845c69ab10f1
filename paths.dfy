/** File names and paths as the test code sees them: `Path::file_stem`,
    `Path::with_extension`, `str::parse::<i64>` and the decimal
    formatting of `format!("{}", id)`. */
module Paths {
  import opened Ci

  const I64Min: int := -0x8000_0000_0000_0000
  const I64Max: int := 0x7FFF_FFFF_FFFF_FFFF

  predicate NoDot(s: string) {
    forall k :: 0 <= k < |s| ==> s[k] != '.'
  }

  /** Index of the last '.' of `s`, if there is one. */
  function LastDot(s: string): (r: Option<nat>)
    ensures r.None? <==> NoDot(s)
    ensures r.Some? ==> r.value < |s| && s[r.value] == '.' && NoDot(s[r.value + 1..])
  {
    if s == [] then None
    else if s[|s| - 1] == '.' then Some(|s| - 1)
    else
      var r := LastDot(s[..|s| - 1]);
      assert r.Some? ==> s[r.value + 1..] == s[..|s| - 1][r.value + 1..] + [s[|s| - 1]];
      r
  }

  /** The stem of a file name: everything before the last '.', unless that
      dot is the first character (a hidden file) or there is none, in which
      case the whole name; ".." is its own stem. */
  function FileStem(name: string): (stem: string)
    ensures stem <= name
    ensures name != [] ==> stem != []
    ensures stem != name ==> name[|stem|] == '.' && NoDot(name[|stem| + 1..])
    ensures stem != name <==> name != ".." && LastDot(name).Some? && LastDot(name).value > 0
  {
    if name == ".." then name
    else match LastDot(name)
      case None => name
      case Some(i) => if i == 0 then name else name[..i]
  }

  /** A path as a directory and its final component. A final component
      that is empty or ".." means the path has no file name. */
  datatype Path = Path(dir: string, name: string)

  /** `Path::with_extension`: cut the file name right after its stem and
      append '.' and the new extension (nothing when that is empty). */
  function WithExtension(p: Path, ext: string): (r: Path)
    ensures r.dir == p.dir
    ensures p.name == "" || p.name == ".." ==> r == p
    ensures p.name != "" && p.name != ".." ==>
      var stem := FileStem(p.name);
      stem <= r.name && r.name[|stem|..] == (if ext == "" then "" else "." + ext)
  {
    if p.name == "" || p.name == ".." then p
    else if ext == "" then Path(p.dir, FileStem(p.name))
    else
      Path(p.dir, FileStem(p.name) + "." + ext)
  }

  /** The last dot of `a + "." + t` is the one before `t` when `t` has none. */
  lemma {:induction false} LastDotBeforeSuffix(a: string, t: string)
    requires NoDot(t)
    ensures LastDot(a + "." + t) == Some(|a|)
  {
    var s := a + "." + t;
    if t != [] {
      assert s[|s| - 1] == t[|t| - 1];
      assert s[..|s| - 1] == a + "." + t[..|t| - 1];
      LastDotBeforeSuffix(a, t[..|t| - 1]);
    }
  }

  /** Appending a dot-free extension to a non-empty stem gives back that stem. */
  lemma StemOfExtended(stem: string, ext: string)
    requires stem != [] && ext != [] && NoDot(ext)
    ensures FileStem(stem + "." + ext) == stem
  {
    var name := stem + "." + ext;
    LastDotBeforeSuffix(stem, ext);
    assert |name| >= 3;
    assert name[..|stem|] == stem;
  }

  /** Replacing the extension by a dot-free one keeps the stem. */
  lemma WithExtensionKeepsStem(p: Path, ext: string)
    requires p.name != "" && p.name != ".." && ext != [] && NoDot(ext)
    ensures FileStem(WithExtension(p, ext).name) == FileStem(p.name)
  {
    StemOfExtended(FileStem(p.name), ext);
  }

  /** The expected-output companion of a test input keeps its stem, so a
      test and its expected output share one id. */
  lemma ExpectedKeepsStem(p: Path)
    requires p.name != "" && p.name != ".."
    ensures WithExtension(p, "out").name == FileStem(p.name) + ".out"
    ensures FileStem(WithExtension(p, "out").name) == FileStem(p.name)
  {
    var stem := FileStem(p.name);
    NoDotOut();
    StemOfExtended(stem, "out");
    assert stem + "." + "out" == stem + ".out";
  }

  /** The alternate companion's stem ends in ".alt", so it never parses as
      an id. */
  lemma AlternateStem(p: Path)
    requires p.name != "" && p.name != ".."
    ensures WithExtension(p, "alt.out").name == FileStem(p.name) + ".alt.out"
    ensures FileStem(WithExtension(p, "alt.out").name) == FileStem(p.name) + ".alt"
    ensures ParseI64(FileStem(WithExtension(p, "alt.out").name)).None?
  {
    var s := FileStem(p.name);
    var alt := WithExtension(p, "alt.out");
    assert alt.name == s + ".alt.out" by {
      assert s + "." + "alt.out" == s + ".alt.out";
    }
    assert FileStem(alt.name) == s + ".alt" by {
      AltSplit(s);
      NoDotOut();
      StemOfExtended(s + ".alt", "out");
    }
    DottedIsNoId(s + ".alt", |s|);
  }

  lemma AltSplit(s: string)
    ensures s + ".alt.out" == (s + ".alt") + "." + "out"
  {
    assert ".alt.out" == ".alt" + "." + "out";
  }

  /** A string with a dot never parses as an integer. */
  lemma DottedIsNoId(t: string, k: nat)
    requires k < |t| && t[k] == '.'
    ensures ParseI64(t).None?
  {
  }

  /** The companions of `<stem>.in` are `<stem>.out` and `<stem>.alt.out`. */
  lemma Companions(dir: string, stem: string)
    requires stem != []
    ensures WithExtension(Path(dir, stem + ".in"), "out") == Path(dir, stem + ".out")
    ensures WithExtension(Path(dir, stem + ".in"), "alt.out") == Path(dir, stem + ".alt.out")
  {
    var p := Path(dir, stem + ".in");
    assert FileStem(p.name) == stem by {
      NoDotIn();
      StemOfExtended(stem, "in");
      assert stem + "." + "in" == stem + ".in";
    }
    assert stem + "." + "out" == stem + ".out";
    assert stem + "." + "alt.out" == stem + ".alt.out";
  }

  /** For example, the companions of `1.in` are `1.out` and `1.alt.out`. */
  lemma CompanionExample(dir: string)
    ensures WithExtension(Path(dir, "1.in"), "out") == Path(dir, "1.out")
    ensures WithExtension(Path(dir, "1.in"), "alt.out") == Path(dir, "1.alt.out")
  {
    Companions(dir, "1");
    assert "1" + ".in" == "1.in";
    assert "1" + ".out" == "1.out";
    assert "1" + ".alt.out" == "1.alt.out";
  }

  lemma NoDotIn()
    ensures NoDot("in")
  {
    assert "in" == ['i', 'n'];
  }

  lemma NoDotOut()
    ensures NoDot("out")
  {
    assert "out" == ['o', 'u', 't'];
  }

  predicate IsDigit(c: char) {
    '0' <= c <= '9'
  }

  predicate AllDigits(s: string) {
    forall k :: 0 <= k < |s| ==> IsDigit(s[k])
  }

  /** The value of a string of decimal digits, most significant first. */
  function DigitsValue(s: string): nat
    requires AllDigits(s)
  {
    if s == [] then 0
    else DigitsValue(s[..|s| - 1]) * 10 + (s[|s| - 1] as int - '0' as int)
  }

  /** `str::parse::<i64>`: an optional '+' or '-', then one or more ASCII
      digits, with a value in the range of `i64`. */
  function ParseI64(s: string): (r: Option<int>)
    ensures r.Some? ==> I64Min <= r.value <= I64Max
    ensures r.Some? ==> s != [] && NoDot(s)
    ensures r.Some? ==> AllDigits(s) || (|s| > 1 && (s[0] == '+' || s[0] == '-') && AllDigits(s[1..]))
    ensures s != [] && AllDigits(s) ==>
      r == if DigitsValue(s) <= I64Max then Some(DigitsValue(s)) else None
    ensures |s| > 1 && s[0] == '+' && AllDigits(s[1..]) ==>
      r == if DigitsValue(s[1..]) <= I64Max then Some(DigitsValue(s[1..])) else None
    ensures |s| > 1 && s[0] == '-' && AllDigits(s[1..]) ==>
      r == if DigitsValue(s[1..]) <= -I64Min then Some(-(DigitsValue(s[1..]) as int)) else None
  {
    var signed := |s| > 0 && (s[0] == '+' || s[0] == '-');
    var digits := if signed then s[1..] else s;
    if digits == [] || !AllDigits(digits) then None
    else
      var v: int := if signed && s[0] == '-' then -(DigitsValue(digits) as int) else DigitsValue(digits);
      assert forall k :: 1 <= k < |s| ==> signed ==> s[k] == digits[k - 1];
      if I64Min <= v <= I64Max then Some(v) else None
  }

  function Digit(d: nat): (c: char)
    requires d < 10
    ensures IsDigit(c) && c as int - '0' as int == d
  {
    ('0' as int + d) as char
  }

  /** Decimal rendering of a natural number, without leading zeros. */
  function DecimalString(n: nat): (s: string)
    ensures s != [] && AllDigits(s)
    ensures DigitsValue(s) == n
    ensures |s| > 1 ==> s[0] != '0'
  {
    if n < 10 then [Digit(n)]
    else
      var s := DecimalString(n / 10) + [Digit(n % 10)];
      assert s[..|s| - 1] == DecimalString(n / 10);
      s
  }

  /** `format!("{}", id)` for an `i64`. */
  function IdString(id: int): (s: string)
    ensures s != [] && NoDot(s)
    ensures s[0] == '-' <==> id < 0
    ensures id < 0 ==> AllDigits(s[1..]) && DigitsValue(s[1..]) == -id && s[1] != '0'
    ensures id >= 0 ==> AllDigits(s) && DigitsValue(s) == id && (|s| > 1 ==> s[0] != '0')
  {
    if id < 0 then "-" + DecimalString(-id) else DecimalString(id)
  }

  /** Formatting an id and parsing it back gives the id. */
  lemma {:induction false} ParseIdString(id: int)
    requires I64Min <= id <= I64Max
    ensures ParseI64(IdString(id)) == Some(id)
  {
    if id < 0 {
      var s := IdString(id);
      assert s[1..] == DecimalString(-id);
    } else {
      assert IdString(id)[0] != '+' && IdString(id)[0] != '-' by {
        assert IsDigit(IdString(id)[0]);
      }
    }
  }

  /** The file `<id>.<ext>` has the id as its stem. */
  lemma IdFileStem(id: int, ext: string)
    requires ext != [] && NoDot(ext)
    ensures FileStem(IdString(id) + "." + ext) == IdString(id)
  {
    StemOfExtended(IdString(id), ext);
  }
}
