/** The batch test runner and test-id allocation of `src/test.rs`. */
module Test {
  import opened Ci
  import opened Paths
  import opened Util
  import opened TestDir

  /** One batch-mode result. */
  datatype TestRun = TestRun(inPath: Path, outPath: Path, outcome: Outcome) {
    predicate Success() {
      outcome.IsSuccess()
    }
  }

  /** A run succeeds exactly when the solution's verdict is Accepted. */
  lemma SuccessIsAccepted(t: TestRun)
    ensures t.Success() <==> t.outcome.verdict == Accepted
  {
  }

  /** What the batch runner asks of the outside world: reading a file,
      asking whether one exists, and `simple_test`, which runs the solution
      on the `index`-th input and checks its output against the expected
      output or the alternate one. */
  datatype BatchEnv = BatchEnv(
    read: Path -> Result<string>,
    present: Path -> bool,
    simpleTest: (nat, string, string, Option<string>) -> Result<Outcome>)

  /** The body of `run_thread`'s loop for one input path: derive the two
      companion paths, read the input, the expected output and the
      alternate output if it exists, and test. */
  function ProcessPath(env: BatchEnv, index: nat, inPath: Path): (r: Result<TestRun>)
    ensures r.Ok? ==> r.value.inPath == inPath && r.value.outPath == WithExtension(inPath, "out")
    ensures r.Ok? ==> env.read(inPath).Ok? && env.read(WithExtension(inPath, "out")).Ok?
    ensures env.read(inPath).Err? ==> r == Err(env.read(inPath).error)
  {
    var outPath := WithExtension(inPath, "out");
    var altPath := WithExtension(inPath, "alt.out");
    var input := env.read(inPath);
    if input.Err? then Err(input.error)
    else
      var output := env.read(outPath);
      if output.Err? then Err(output.error)
      else
        var alt := if env.present(altPath) then env.read(altPath) else Ok("");
        if alt.Err? then Err(alt.error)
        else
          var altText := if env.present(altPath) then Some(alt.value) else None;
          var outcome := env.simpleTest(index, input.value, output.value, altText);
          if outcome.Err? then Err(outcome.error)
          else Ok(TestRun(inPath, outPath, outcome.value))
  }

  /** Every way `ProcessPath` can end: an unreadable expected output or
      alternate output is the error; otherwise the outcome is `simple_test`
      on the input, the expected output and the alternate output when that
      file is present, and a `simple_test` error is the error. */
  lemma ProcessPathResults(env: BatchEnv, index: nat, inPath: Path)
    ensures var r := ProcessPath(env, index, inPath);
      var output := env.read(WithExtension(inPath, "out"));
      env.read(inPath).Ok? && output.Err? ==> r == Err(output.error)
    ensures var r := ProcessPath(env, index, inPath);
      var altPath := WithExtension(inPath, "alt.out");
      env.read(inPath).Ok? && env.read(WithExtension(inPath, "out")).Ok? && env.present(altPath) && env.read(altPath).Err? ==>
        r == Err(env.read(altPath).error)
    ensures var r := ProcessPath(env, index, inPath);
      var altPath := WithExtension(inPath, "alt.out");
      env.read(inPath).Ok? && env.read(WithExtension(inPath, "out")).Ok? && (env.present(altPath) ==> env.read(altPath).Ok?) ==>
        var alt := if env.present(altPath) then Some(env.read(altPath).value) else None;
        var outcome := env.simpleTest(index, env.read(inPath).value, env.read(WithExtension(inPath, "out")).value, alt);
        (outcome.Err? ==> r == Err(outcome.error)) && (outcome.Ok? ==> r.Ok? && r.value.outcome == outcome.value)
  {
  }

  /** The body of `run_thread`'s loop for the `index`-th input path, with
      each `?` returning its error. */
  method TestPath(env: BatchEnv, index: nat, inPath: Path) returns (r: Result<TestRun>)
    ensures r == ProcessPath(env, index, inPath)
  {
    var outPath := WithExtension(inPath, "out");
    var altPath := WithExtension(inPath, "alt.out");
    var input := env.read(inPath);
    if input.Err? { return Err(input.error); }
    var output := env.read(outPath);
    if output.Err? { return Err(output.error); }
    var alt: Option<string> := None;
    if env.present(altPath) {
      var text := env.read(altPath);
      if text.Err? { return Err(text.error); }
      alt := Some(text.value);
    }
    var outcome := env.simpleTest(index, input.value, output.value, alt);
    if outcome.Err? { return Err(outcome.error); }
    r := Ok(TestRun(inPath, outPath, outcome.value));
  }

  /** `run_thread`: process the paths in order and send one run per path;
      stop at the first path that fails (returning its error) or whose run
      the consumer no longer accepts (`accepts(i)` is false). */
  method RunThread(env: BatchEnv, ins: seq<Path>, accepts: nat -> bool) returns (sent: seq<TestRun>, result: Result<()>)
    ensures |sent| <= |ins|
    ensures forall i :: 0 <= i < |sent| ==> ProcessPath(env, i, ins[i]) == Ok(sent[i]) && accepts(i)
    ensures |sent| == |ins| ==> result.Ok?
    ensures |sent| < |ins| ==>
      match ProcessPath(env, |sent|, ins[|sent|])
      case Err(e) => result == Err(e)
      case Ok(_) => result.Ok? && !accepts(|sent|)
  {
    sent := [];
    var i := 0;
    while i < |ins|
      invariant 0 <= i <= |ins| && |sent| == i
      invariant forall k :: 0 <= k < i ==> ProcessPath(env, k, ins[k]) == Ok(sent[k]) && accepts(k)
    {
      var run := TestPath(env, i, ins[i]);
      if run.Err? { return sent, Err(run.error); }
      if !accepts(i) { return sent, Ok(()); }
      sent := sent + [run.value];
      i := i + 1;
    }
    result := Ok(());
  }

  /** The result of processing each input path, in scan order. */
  function Results(env: BatchEnv, ins: seq<Path>): (rs: seq<Result<TestRun>>)
    ensures |rs| == |ins| && forall i :: 0 <= i < |ins| ==> rs[i] == ProcessPath(env, i, ins[i])
  {
    seq(|ins|, i requires 0 <= i < |ins| => ProcessPath(env, i, ins[i]))
  }

  /** What the consumer receives from the runner thread: the runs it sent,
      then its error if it failed. */
  function Received(sent: seq<TestRun>, result: Result<()>): (items: seq<Result<TestRun>>)
    ensures |items| == |sent| + (if result.Err? then 1 else 0)
    ensures forall i :: 0 <= i < |sent| ==> items[i] == Ok(sent[i])
    ensures result.Err? ==> items[|sent|] == Err(result.error)
  {
    seq(|sent|, i requires 0 <= i < |sent| => Ok(sent[i])) + (if result.Err? then [Err(result.error)] else [])
  }

  /** What the consumer of `run` can rely on from the runner thread: the
      runs it sent precede the first failing path; an error is that path's;
      and a thread that stopped early without an error was cancelled at the
      next run. */
  lemma ThreadOutcome(rs: seq<Result<TestRun>>, accepts: nat -> bool, cancelAt: Option<nat>, sent: seq<TestRun>, result: Result<()>)
    requires forall i: nat :: accepts(i) == (cancelAt.None? || i < cancelAt.value)
    requires |sent| <= |rs|
    requires forall i :: 0 <= i < |sent| ==> rs[i] == Ok(sent[i]) && accepts(i)
    requires |sent| == |rs| ==> result.Ok?
    requires |sent| < |rs| ==>
      match rs[|sent|]
      case Err(e) => result == Err(e)
      case Ok(_) => result.Ok? && !accepts(|sent|)
    ensures var k := FirstErr(rs, 0);
      |sent| <= k &&
      (result.Err? ==> |sent| == k < |rs| && result.error == rs[k].error) &&
      (result.Ok? && |sent| < |rs| ==> cancelAt == Some(|sent|) && |sent| < k)
  {
    if |sent| > 0 {
      assert accepts(|sent| - 1);
    }
  }

  /** `run`: build the solution, start the runner thread on the scanned
      inputs `ins`, and collect `|ins|` runs in the order received. The
      user may cancel the progress indicator while the consumer waits for
      run `cancelAt`; from then on the consumer no longer listens. */
  method Run(env: BatchEnv, build: Result<()>, ins: seq<Path>, cancelAt: Option<nat>) returns (r: Result<seq<TestRun>>)
    ensures build.Err? ==> r == Err(build.error)
    ensures build.Ok? ==>
      var rs := Results(env, ins);
      var k := FirstErr(rs, 0);
      var c := if cancelAt.Some? then cancelAt.value else |ins|;
      if c <= k && c < |ins| then r == Err(Cancel)
      else if k < |ins| then r == Err(rs[k].error)
      else r.Ok?
    ensures r.Ok? ==> |r.value| == |ins| && forall i :: 0 <= i < |ins| ==> ProcessPath(env, i, ins[i]) == Ok(r.value[i])
  {
    if build.Err? { return Err(build.error); }
    var accepts := (i: nat) => cancelAt.None? || i < cancelAt.value;
    var sent, result := RunThread(env, ins, accepts);
    var items := Received(sent, result);
    ghost var rs := Results(env, ins);
    ghost var k := FirstErr(rs, 0);
    ThreadOutcome(rs, accepts, cancelAt, sent, result);
    var runs: seq<TestRun> := [];
    var i := 0;
    while i < |ins|
      invariant 0 <= i <= |sent| && runs == sent[..i]
      invariant cancelAt.Some? ==> i <= cancelAt.value
    {
      if cancelAt == Some(i) { return Err(Cancel); }
      assert i < |items|;
      match items[i]
      case Err(e) =>
        assert i == |sent| == k;
        return Err(e);
      case Ok(run) =>
        runs := runs + [run];
        i := i + 1;
    }
    assert runs == sent;
    return Ok(runs);
  }

  /** The first loop of `unused_test_id`: insert the id of every numeric
      file stem into a set. */
  method CollectTaken(names: seq<string>) returns (taken: set<int>)
    ensures taken == TakenIds(names)
  {
    taken := {};
    ghost var vs := Stems(names);
    for i := 0 to |names|
      invariant taken == Ids(vs[..i])
    {
      IdsSnoc(vs, i);
      var parsed := StemId(names[i]);
      assert IdOf(vs[i]) == if parsed.Some? then {parsed.value} else {};
      if parsed.Some? {
        taken := taken + {parsed.value};
      }
    }
    assert vs[..|names|] == vs;
  }

  /** `unused_test_id`: collect the ids of the directory's numeric file
      stems, then count up from 1 to the first one not taken. */
  method UnusedTestId(names: seq<string>) returns (id: int)
    ensures IsMexFrom(1, TakenIds(names), id)
    ensures id <= |TakenIds(names)| + 1
  {
    var taken := CollectTaken(names);
    id := 1;
    while id in taken
      invariant 1 <= id
      invariant forall k :: 1 <= k < id ==> k in taken
      invariant id <= |taken| + 1
      decreases |taken| + 1 - id
    {
      PrefixBound(taken, id + 1);
      id := id + 1;
    }
    MexBound(taken, id);
  }

  /** `add`: allocate the smallest unused id in the custom test directory
      and write `<id>.in` holding the input and `<id>.out` holding the
      desired output. */
  method Add(names: seq<string>, input: string, desired: string) returns (id: int, writes: seq<FileWrite>)
    ensures IsMexFrom(1, TakenIds(names), id)
    ensures writes == TestFiles(id, input, desired)
  {
    id := UnusedTestId(names);
    writes := [FileWrite(IdString(id) + ".in", input)];
    writes := writes + [FileWrite(IdString(id) + ".out", desired)];
  }
}
