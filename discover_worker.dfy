/** The discovery worker of `src/discover/manage.rs`: `worker_thread`
    waits for a Start order, and `worker_run` iterates generate / brute
    force / test / report, polling the order queue once per iteration.

    The order queue is modelled as the sequence of what the worker sees
    each time it polls or waits on it: `Some(order)` is an order taken off
    the queue, `None` a poll that found the queue empty (a blocking wait
    just goes on waiting), and the end of the sequence is the manager
    dropping its sender, which makes every later poll or wait fail. Every
    poll or wait consumes exactly one entry, so the worker is a machine
    that takes one step per entry. */
module DiscoverWorker {
  import opened Ci

  datatype WorkerOrder = Start | Pause | Reset

  /** What the worker sends to the manager after each iteration or failure. */
  type Report = Result<Row>

  type Queue = seq<Option<WorkerOrder>>

  /** The programs the worker drives, indexed by the position of the queue
      entry whose step runs them: the three builds at the start of a
      session, the generator, the brute force (on the generated input),
      `simple_test` of the solution (on the input and the desired output)
      and the fitness of an input. */
  datatype Oracles = Oracles(
    build: nat -> Result<()>,
    gen: nat -> Result<Outcome>,
    brut: (nat, string) -> Result<Outcome>,
    test: (nat, string, string) -> Result<Outcome>,
    fitness: string -> int)

  /** `Idle`: `worker_thread` waits for Start. `Running(n)`: `worker_run`
      is about to poll before iteration `n`. `Paused(n)`: the pause loop
      waits for Start or Reset, iteration `n` being next. */
  datatype WorkerState = Idle | Running(number: nat) | Paused(number: nat)

  /** The generator ran and exited successfully. */
  predicate GenSucceeds(o: Oracles, i: nat) {
    o.gen(i).Ok? && o.gen(i).value.IsSuccess()
  }

  /** The generated input, once the generator has succeeded. */
  function GenInput(o: Oracles, i: nat): string
    requires GenSucceeds(o, i)
  {
    o.gen(i).value.stdout
  }

  /** The brute force ran on the generated input and exited successfully. */
  predicate BrutSucceeds(o: Oracles, i: nat)
    requires GenSucceeds(o, i)
  {
    o.brut(i, GenInput(o, i)).Ok? && o.brut(i, GenInput(o, i)).value.IsSuccess()
  }

  /** The desired output, as the brute force computed it. */
  function BrutOutput(o: Oracles, i: nat): string
    requires GenSucceeds(o, i) && BrutSucceeds(o, i)
  {
    o.brut(i, GenInput(o, i)).value.stdout
  }

  /** One iteration, numbered `number`, run by the step at queue position `i`. */
  function Iteration(o: Oracles, i: nat, number: nat): (r: Report)
    ensures r.Ok? <==> GenSucceeds(o, i) && BrutSucceeds(o, i) && o.test(i, GenInput(o, i), BrutOutput(o, i)).Ok?
    ensures r.Ok? ==> r.value.number == number
    ensures r.Ok? ==> r.value.input == GenInput(o, i) && r.value.fitness == o.fitness(r.value.input)
    ensures r.Ok? ==> r.value.solution == o.test(i, GenInput(o, i), BrutOutput(o, i)).value
    ensures o.gen(i).Err? ==> r == Err(o.gen(i).error)
    ensures o.gen(i).Ok? && !GenSucceeds(o, i) ==> r == Err(Failed("test generator failed"))
    ensures GenSucceeds(o, i) && o.brut(i, GenInput(o, i)).Err? ==> r == Err(o.brut(i, GenInput(o, i)).error)
    ensures GenSucceeds(o, i) && o.brut(i, GenInput(o, i)).Ok? && !BrutSucceeds(o, i) ==> r == Err(Failed("brut failed"))
    ensures GenSucceeds(o, i) && BrutSucceeds(o, i) && o.test(i, GenInput(o, i), BrutOutput(o, i)).Err? ==>
      r == Err(o.test(i, GenInput(o, i), BrutOutput(o, i)).error)
  {
    var runGen := o.gen(i);
    if runGen.Err? then Err(runGen.error)
    else if !runGen.value.IsSuccess() then Err(Failed("test generator failed"))
    else
      var input := runGen.value.stdout;
      var runBrut := o.brut(i, input);
      if runBrut.Err? then Err(runBrut.error)
      else if !runBrut.value.IsSuccess() then Err(Failed("brut failed"))
      else
        var outcome := o.test(i, input, runBrut.value.stdout);
        if outcome.Err? then Err(outcome.error)
        else Ok(Row(number, outcome.value, o.fitness(input), input))
  }

  /** Run iteration `number` and continue: with the next number after a
      row, back to Idle after an error. */
  function Iterate(o: Oracles, i: nat, number: nat): (WorkerState, Option<Report>) {
    var r := Iteration(o, i, number);
    (if r.Ok? then Running(number + 1) else Idle, Some(r))
  }

  /** The worker's step on the queue entry at position `i`. */
  function Step(o: Oracles, i: nat, w: WorkerState, e: Option<WorkerOrder>): (WorkerState, Option<Report>) {
    match w
    case Idle =>
      if e == Some(Start) then
        if o.build(i).Err? then (Idle, Some(Err(o.build(i).error))) else (Running(1), None)
      else (Idle, None)
    case Running(n) =>
      if e == Some(Reset) then (Idle, None)
      else if e == Some(Pause) then (Paused(n), None)
      else Iterate(o, i, n)
    case Paused(n) =>
      if e == Some(Start) then Iterate(o, i, n)
      else if e == Some(Reset) then (Idle, Some(Err(Cancel)))
      else (Paused(n), None)
  }

  function OptionSeq(r: Option<Report>): seq<Report> {
    if r.Some? then [r.value] else []
  }

  /** The reports sent from queue position `i` on, starting in state `w`.
      Once the queue is closed, a session in progress fails with
      `Disconnected` and the worker ends. */
  function Trace(o: Oracles, q: Queue, i: nat, w: WorkerState): seq<Report>
    decreases |q| - i
  {
    if i >= |q| then
      (if w.Idle? then [] else [Err(Disconnected)])
    else
      var (w', r) := Step(o, i, w, q[i]);
      OptionSeq(r) + Trace(o, q, i + 1, w')
  }

  /** What one step can do: Reset always ends the session; an idle worker
      reports nothing but a failed build; rows carry the state's counter;
      a session starts at 1 and each row moves the counter on by one; the
      pause loop keeps the counter and sends nothing. */
  lemma StepRules(o: Oracles, i: nat, w: WorkerState, e: Option<WorkerOrder>)
    ensures var (w', r) := Step(o, i, w, e);
      (e == Some(Reset) ==> w'.Idle?) &&
      (w.Idle? ==> r.None? || (e == Some(Start) && o.build(i).Err? && r == Some(Err(o.build(i).error)))) &&
      (r.Some? && r.value.Ok? ==> !w.Idle? && r.value.value.number == w.number) &&
      (w'.Running? ==>
        if w.Idle? then w'.number == 1 && r.None?
        else w'.number == w.number + 1 && r.Some? && r.value.Ok?) &&
      (w'.Paused? ==> !w.Idle? && w'.number == w.number && r.None?)
  {
  }

  /** At most one report per queue entry, and one more when the queue
      closes during a session. */
  lemma {:induction false} TraceLength(o: Oracles, q: Queue, i: nat, w: WorkerState)
    ensures |Trace(o, q, i, w)| <= (if i < |q| then |q| - i else 0) + (if w.Idle? then 0 else 1)
    decreases |q| - i
  {
    if i < |q| {
      var (w', r) := Step(o, i, w, q[i]);
      TraceLength(o, q, i + 1, w');
    }
  }

  /** Report `k` of `rs`, if a row, is numbered from 1, and a row numbered
      n > 1 comes right after the row numbered n - 1. */
  ghost predicate FollowsAt(rs: seq<Report>, k: nat)
    requires k < |rs|
  {
    rs[k].Ok? ==>
      rs[k].value.number >= 1 &&
      (rs[k].value.number > 1 ==> k > 0 && rs[k - 1].Ok? && rs[k - 1].value.number + 1 == rs[k].value.number)
  }

  /** Rows are numbered 1, 2, 3, ... within a session: no gaps and no
      repeats. */
  ghost predicate ConsecutiveNumbers(rs: seq<Report>) {
    forall k :: 0 <= k < |rs| ==> FollowsAt(rs, k)
  }

  /** In state `w` after having sent `prev`, the next row's number follows
      the last one sent. */
  ghost predicate NextNumberFits(prev: seq<Report>, w: WorkerState) {
    match w
    case Idle => true
    case Running(n) => n >= 1 && (n > 1 ==> |prev| > 0 && prev[|prev| - 1].Ok? && prev[|prev| - 1].value.number + 1 == n)
    case Paused(n) => n >= 1 && (n > 1 ==> |prev| > 0 && prev[|prev| - 1].Ok? && prev[|prev| - 1].value.number + 1 == n)
  }

  lemma AppendReport(prev: seq<Report>, r: Report)
    requires ConsecutiveNumbers(prev)
    requires r.Ok? ==> r.value.number >= 1
    requires r.Ok? && r.value.number > 1 ==> |prev| > 0 && prev[|prev| - 1].Ok? && prev[|prev| - 1].value.number + 1 == r.value.number
    ensures ConsecutiveNumbers(prev + [r])
  {
    var s := prev + [r];
    forall k | 0 <= k < |s|
      ensures FollowsAt(s, k)
    {
      if k < |prev| {
        assert FollowsAt(prev, k);
        assert s[k] == prev[k];
        assert k > 0 ==> s[k - 1] == prev[k - 1];
      } else {
        assert k > 0 ==> s[k - 1] == prev[k - 1];
      }
    }
  }

  /** One step keeps the numbering invariant. */
  lemma StepNumbering(o: Oracles, i: nat, w: WorkerState, e: Option<WorkerOrder>, prev: seq<Report>)
    requires ConsecutiveNumbers(prev) && NextNumberFits(prev, w)
    ensures var (w', r) := Step(o, i, w, e);
      ConsecutiveNumbers(prev + OptionSeq(r)) && NextNumberFits(prev + OptionSeq(r), w')
  {
    var (w', r) := Step(o, i, w, e);
    if r.Some? {
      AppendReport(prev, r.value);
      var s := prev + [r.value];
      assert s[|s| - 1] == r.value;
    } else {
      assert prev + OptionSeq(r) == prev;
    }
  }

  /** The state reached and the reports sent after the first `n` queue
      entries, starting idle. */
  function Prefix(o: Oracles, q: Queue, n: nat): (WorkerState, seq<Report>)
    requires n <= |q|
  {
    if n == 0 then (Idle, [])
    else
      var (w, rs) := Prefix(o, q, n - 1);
      var (w', r) := Step(o, n - 1, w, q[n - 1]);
      (w', rs + OptionSeq(r))
  }

  lemma PrefixStep(o: Oracles, q: Queue, n: nat)
    requires n < |q|
    ensures Prefix(o, q, n + 1).0 == Step(o, n, Prefix(o, q, n).0, q[n]).0
    ensures Prefix(o, q, n + 1).1 == Prefix(o, q, n).1 + OptionSeq(Step(o, n, Prefix(o, q, n).0, q[n]).1)
  {
  }

  /** A step that sends nothing moves the prefix to the new state. */
  lemma PrefixSilent(o: Oracles, q: Queue, n: nat, w: WorkerState, sent: seq<Report>)
    requires n < |q| && Prefix(o, q, n) == (w, sent) && Step(o, n, w, q[n]).1.None?
    ensures Prefix(o, q, n + 1) == (Step(o, n, w, q[n]).0, sent)
  {
    PrefixStep(o, q, n);
    assert sent + [] == sent;
  }

  /** A step that sends a report appends it to the prefix. */
  lemma PrefixReport(o: Oracles, q: Queue, n: nat, w: WorkerState, sent: seq<Report>)
    requires n < |q| && Prefix(o, q, n) == (w, sent) && Step(o, n, w, q[n]).1.Some?
    ensures Prefix(o, q, n + 1) == (Step(o, n, w, q[n]).0, sent + [Step(o, n, w, q[n]).1.value])
  {
    PrefixStep(o, q, n);
  }

  /** What has been sent once the queue is closed: a session still in
      progress fails with `Disconnected`. */
  function Finish(p: (WorkerState, seq<Report>)): seq<Report> {
    p.1 + if p.0.Idle? then [] else [Err(Disconnected)]
  }

  /** The reports sent so far, followed by those still to come, are the
      whole trace. */
  lemma {:induction false} PrefixThenTrace(o: Oracles, q: Queue, n: nat)
    requires n <= |q|
    ensures Prefix(o, q, n).1 + Trace(o, q, n, Prefix(o, q, n).0) == Trace(o, q, 0, Idle)
  {
    if n > 0 {
      PrefixThenTrace(o, q, n - 1);
      var (w, rs) := Prefix(o, q, n - 1);
      var (w', r) := Step(o, n - 1, w, q[n - 1]);
      assert Trace(o, q, n - 1, w) == OptionSeq(r) + Trace(o, q, n, w');
      assert rs + (OptionSeq(r) + Trace(o, q, n, w')) == (rs + OptionSeq(r)) + Trace(o, q, n, w');
    }
  }

  lemma {:induction false} PrefixNumbering(o: Oracles, q: Queue, n: nat)
    requires n <= |q|
    ensures ConsecutiveNumbers(Prefix(o, q, n).1) && NextNumberFits(Prefix(o, q, n).1, Prefix(o, q, n).0)
  {
    if n > 0 {
      PrefixNumbering(o, q, n - 1);
      var (w, rs) := Prefix(o, q, n - 1);
      StepNumbering(o, n - 1, w, q[n - 1], rs);
    }
  }

  /** Whatever the queue and the programs do, the rows the worker sends
      are numbered 1, 2, 3, ... within each session. */
  lemma ReportsNumbering(o: Oracles, q: Queue)
    ensures ConsecutiveNumbers(Trace(o, q, 0, Idle))
  {
    PrefixNumbering(o, q, |q|);
    PrefixThenTrace(o, q, |q|);
    var (w, rs) := Prefix(o, q, |q|);
    if !w.Idle? {
      AppendReport(rs, Err(Disconnected));
    } else {
      assert rs + Trace(o, q, |q|, w) == rs;
    }
  }

  /** A session that has not sent a row yet starts numbering at 1: the
      first report after a Start, if a row, is row 1. */
  lemma {:induction false} SessionStartsAtOne(o: Oracles, q: Queue, i: nat, w: WorkerState)
    requires w.Idle? || w == Running(1) || w == Paused(1)
    ensures var t := Trace(o, q, i, w); t != [] && t[0].Ok? ==> t[0].value.number == 1
    decreases |q| - i
  {
    if i < |q| {
      var (w', r) := Step(o, i, w, q[i]);
      if r.None? {
        SessionStartsAtOne(o, q, i + 1, w');
      }
    }
  }

  /** Every Start that builds opens a session whose first row is 1, even
      after a silent Reset ended the previous one. */
  lemma StartNumbersFromOne(o: Oracles, q: Queue, i: nat)
    requires i < |q| && q[i] == Some(Start) && o.build(i).Ok?
    ensures var t := Trace(o, q, i, Idle); t != [] && t[0].Ok? ==> t[0].value.number == 1
  {
    IdleStart(o, q, i);
    SessionStartsAtOne(o, q, i + 1, Running(1));
  }

  /** While idle, Pause and Reset (and empty polls) are discarded. */
  lemma IdleDiscards(o: Oracles, q: Queue, i: nat)
    requires i < |q| && q[i] != Some(Start)
    ensures Trace(o, q, i, Idle) == Trace(o, q, i + 1, Idle)
  {
  }

  /** An idle worker sends nothing until it sees a Start. */
  lemma {:induction false} IdleWithoutStart(o: Oracles, q: Queue, i: nat)
    requires forall k :: i <= k < |q| ==> q[k] != Some(Start)
    ensures Trace(o, q, i, Idle) == []
    decreases |q| - i
  {
    if i < |q| {
      IdleWithoutStart(o, q, i + 1);
    }
  }

  /** Start begins a session whose first row is numbered 1, unless a build
      fails, which is reported and leaves the worker idle. */
  lemma IdleStart(o: Oracles, q: Queue, i: nat)
    requires i < |q| && q[i] == Some(Start)
    ensures o.build(i).Err? ==> Trace(o, q, i, Idle) == [Err(o.build(i).error)] + Trace(o, q, i + 1, Idle)
    ensures o.build(i).Ok? ==> Trace(o, q, i, Idle) == Trace(o, q, i + 1, Running(1))
  {
  }

  /** A Reset seen at an iteration boundary ends the session silently: no
      further row and no error. */
  lemma ResetWhileRunning(o: Oracles, q: Queue, i: nat, n: nat)
    requires i < |q| && q[i] == Some(Reset)
    ensures Trace(o, q, i, Running(n)) == Trace(o, q, i + 1, Idle)
  {
  }

  /** A Reset while paused reports a cancellation and ends the session. */
  lemma ResetWhilePaused(o: Oracles, q: Queue, i: nat, n: nat)
    requires i < |q| && q[i] == Some(Reset)
    ensures Trace(o, q, i, Paused(n)) == [Err(Cancel)] + Trace(o, q, i + 1, Idle)
  {
  }

  /** A Pause goes to the pause loop with the counter kept; further Pauses
      and empty polls leave it there. */
  lemma PauseKeepsNumber(o: Oracles, q: Queue, i: nat, n: nat)
    requires i < |q| && q[i] == Some(Pause)
    ensures Trace(o, q, i, Running(n)) == Trace(o, q, i + 1, Paused(n))
    ensures Trace(o, q, i, Paused(n)) == Trace(o, q, i + 1, Paused(n))
  {
  }

  /** Start in the pause loop resumes exactly as an iteration that had not
      been paused: the same number, the same programs. */
  lemma ResumeKeepsNumber(o: Oracles, q: Queue, i: nat, n: nat)
    requires i < |q| && q[i] == Some(Start)
    ensures Trace(o, q, i, Paused(n)) == Trace(o, q, i, Running(n))
  {
  }

  /** What `worker_run` sends before it returns, followed by the error that
      `worker_thread` forwards when it returns one. */
  function Sent(rows: seq<Report>, result: Result<()>): seq<Report> {
    rows + if result.Err? then [Err(result.error)] else []
  }

  /** After the first `n` entries the worker has sent `out` and is idle,
      or the queue is closed and `out` is everything it sent. */
  ghost predicate SentUpTo(o: Oracles, q: Queue, n: nat, out: seq<Report>)
    requires n <= |q|
  {
    var (w, rs) := Prefix(o, q, n);
    (w.Idle? && rs == out) || (n == |q| && Finish((w, rs)) == out)
  }

  /** One iteration of `worker_run`'s loop body: generate an input, run
      the brute force on it, test the solution against the brute force's
      output and measure the input's fitness. */
  method RunIteration(o: Oracles, i: nat, number: nat) returns (r: Report)
    ensures r == Iteration(o, i, number)
  {
    var runGen := o.gen(i);
    if runGen.Err? {
      return Err(runGen.error);
    }
    if !runGen.value.IsSuccess() {
      return Err(Failed("test generator failed"));
    }
    var input := runGen.value.stdout;
    var runBrut := o.brut(i, input);
    if runBrut.Err? {
      return Err(runBrut.error);
    }
    if !runBrut.value.IsSuccess() {
      return Err(Failed("brut failed"));
    }
    var desired := runBrut.value.stdout;
    var outcome := o.test(i, input, desired);
    if outcome.Err? {
      return Err(outcome.error);
    }
    var fitness := o.fitness(input);
    r := Ok(Row(number, outcome.value, fitness, input));
  }

  /** The pause loop: wait on the queue from position `pos` until Start
      (`resumed`) or Reset or the queue closing (`stop` holds the error
      `worker_run` returns). */
  method PauseLoop(o: Oracles, q: Queue, pos: nat, number: nat, ghost sent: seq<Report>)
      returns (next: nat, resumed: bool, stop: Result<()>)
    requires pos <= |q| && Prefix(o, q, pos) == (Paused(number), sent)
    ensures pos <= next <= |q|
    ensures resumed ==> pos < next && q[next - 1] == Some(Start) && Prefix(o, q, next - 1) == (Paused(number), sent)
    ensures !resumed ==> stop.Err? && SentUpTo(o, q, next, sent + [Err(stop.error)])
  {
    next := pos;
    while true
      invariant pos <= next <= |q|
      invariant Prefix(o, q, next) == (Paused(number), sent)
      decreases |q| - next
    {
      if next == |q| {
        return next, false, Err(Disconnected);
      }
      var order := q[next];
      if order == Some(Start) {
        return next + 1, true, Ok(());
      } else if order == Some(Reset) {
        PrefixReport(o, q, next, Paused(number), sent);
        return next + 1, false, Err(Cancel);
      }
      PrefixSilent(o, q, next, Paused(number), sent);
      next := next + 1;
    }
  }

  /** Reset at the poll ends the session with nothing more sent. */
  lemma ResetSent(o: Oracles, q: Queue, pos: nat, number: nat, sent: seq<Report>)
    requires pos < |q| && q[pos] == Some(Reset) && Prefix(o, q, pos) == (Running(number), sent)
    ensures SentUpTo(o, q, pos + 1, sent + Sent([], Ok(())))
  {
    PrefixSilent(o, q, pos, Running(number), sent);
    assert sent + Sent([], Ok(())) == sent;
  }

  /** An empty poll, or Start in the pause loop, runs the iteration. */
  lemma PrefixIterates(o: Oracles, q: Queue, pos: nat, w: WorkerState, sent: seq<Report>)
    requires pos < |q| && Prefix(o, q, pos) == (w, sent)
    requires (w.Running? && q[pos] != Some(Reset) && q[pos] != Some(Pause)) || (w.Paused? && q[pos] == Some(Start))
    ensures Prefix(o, q, pos + 1) == (Iterate(o, pos, w.number).0, sent + [Iteration(o, pos, w.number)])
  {
    assert Step(o, pos, w, q[pos]) == Iterate(o, pos, w.number);
    PrefixReport(o, q, pos, w, sent);
  }

  /** Pause while iteration `number` is next: the pause loop, after the
      Pause order at position `pos`. */
  method Suspend(o: Oracles, q: Queue, pos: nat, number: nat, ghost sent: seq<Report>)
      returns (next: nat, go: bool, stop: Result<()>)
    requires pos < |q| && q[pos] == Some(Pause) && Prefix(o, q, pos) == (Running(number), sent)
    ensures pos <= next <= |q|
    ensures go ==> pos < next && Prefix(o, q, next) == (Iterate(o, next - 1, number).0, sent + [Iteration(o, next - 1, number)])
    ensures !go ==> SentUpTo(o, q, next, sent + Sent([], stop))
  {
    PrefixSilent(o, q, pos, Running(number), sent);
    var resumed;
    next, resumed, stop := PauseLoop(o, q, pos + 1, number, sent);
    if !resumed {
      return next, false, stop;
    }
    PrefixIterates(o, q, next - 1, Paused(number), sent);
    return next, true, Ok(());
  }

  /** The poll at the top of `worker_run`'s loop, iteration `number` being
      next: `try_recv`, and the pause loop on Pause. Either the iteration
      goes ahead (`go`), run by the step at `next - 1`, or `worker_run`
      returns `stop`. */
  method Poll(o: Oracles, q: Queue, pos: nat, number: nat, ghost sent: seq<Report>)
      returns (next: nat, go: bool, stop: Result<()>)
    requires pos <= |q| && Prefix(o, q, pos) == (Running(number), sent)
    ensures pos <= next <= |q|
    ensures go ==> pos < next && Prefix(o, q, next) == (Iterate(o, next - 1, number).0, sent + [Iteration(o, next - 1, number)])
    ensures !go ==> SentUpTo(o, q, next, sent + Sent([], stop))
  {
    if pos == |q| {
      return pos, false, Err(Disconnected);
    }
    var polled := q[pos];
    if polled == Some(Reset) {
      ResetSent(o, q, pos, number, sent);
      return pos + 1, false, Ok(());
    }
    if polled == Some(Pause) {
      next, go, stop := Suspend(o, q, pos, number, sent);
      return;
    }
    PrefixIterates(o, q, pos, Running(number), sent);
    return pos + 1, true, Ok(());
  }

  /** One round of `worker_run`'s loop: poll, then iterate. Either a row
      is sent and the loop goes on (`row`), or `worker_run` returns
      `stop`. */
  method Round(o: Oracles, q: Queue, pos: nat, number: nat, ghost sent: seq<Report>)
      returns (next: nat, row: Option<Row>, stop: Result<()>)
    requires pos <= |q| && Prefix(o, q, pos) == (Running(number), sent)
    ensures pos <= next <= |q|
    ensures row.Some? ==> (pos < next && row.value.number == number &&
      Prefix(o, q, next) == (Running(number + 1), sent + [Ok(row.value)]))
    ensures row.None? ==> SentUpTo(o, q, next, sent + Sent([], stop))
  {
    var go;
    next, go, stop := Poll(o, q, pos, number, sent);
    if !go {
      return next, None, stop;
    }
    var report := RunIteration(o, next - 1, number);
    if report.Err? {
      assert sent + Sent([], Err(report.error)) == sent + [report];
      return next, None, Err(report.error);
    }
    return next, Some(report.value), Ok(());
  }

  /** `worker_run` for the session started by the Start at position
      `start`, `before` having been sent earlier: build, then iterate with
      `number` counting from 1, polling the queue before each iteration.
      Returns the rows it sent, how it ended and the queue position after
      its last poll. */
  method WorkerRun(o: Oracles, q: Queue, start: nat, ghost before: seq<Report>) returns (rows: seq<Report>, result: Result<()>, next: nat)
    requires start < |q| && q[start] == Some(Start)
    requires Prefix(o, q, start) == (Idle, before)
    ensures start < next <= |q|
    ensures forall k :: 0 <= k < |rows| ==> rows[k].Ok?
    ensures SentUpTo(o, q, next, before + Sent(rows, result))
  {
    rows := [];
    var built := o.build(start);
    if built.Err? {
      PrefixReport(o, q, start, Idle, before);
      return rows, Err(built.error), start + 1;
    }
    PrefixSilent(o, q, start, Idle, before);
    assert before + rows == before;
    var number := 1;
    next := start + 1;
    while true
      invariant start < next <= |q| && number >= 1
      invariant forall k :: 0 <= k < |rows| ==> rows[k].Ok?
      invariant Prefix(o, q, next) == (Running(number), before + rows)
      decreases |q| - next
    {
      var pos, row, stop := Round(o, q, next, number, before + rows);
      if row.None? {
        assert before + rows + Sent([], stop) == before + Sent(rows, stop);
        return rows, stop, pos;
      }
      assert before + rows + [Ok(row.value)] == before + (rows + [Ok(row.value)]);
      rows := rows + [Ok(row.value)];
      number := number + 1;
      next := pos;
    }
  }

  /** `worker_thread`: wait for Start, run a session, forward its error,
      and wait again; end when the queue is closed. The reports it sends
      are exactly the trace of the step machine. */
  method WorkerThread(o: Oracles, q: Queue) returns (reports: seq<Report>)
    ensures reports == Trace(o, q, 0, Idle)
    ensures ConsecutiveNumbers(reports)
  {
    reports := [];
    var pos := 0;
    while pos < |q|
      invariant 0 <= pos <= |q|
      invariant SentUpTo(o, q, pos, reports)
      decreases |q| - pos
    {
      if q[pos] == Some(Start) {
        var rows, result, next := WorkerRun(o, q, pos, reports);
        reports := reports + rows;
        if result.Err? {
          reports := reports + [Err(result.error)];
        }
        pos := next;
      } else {
        pos := pos + 1;
      }
    }
    PrefixThenTrace(o, q, |q|);
    ReportsNumbering(o, q);
  }
}
