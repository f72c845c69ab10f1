/** The discovery manager of `src/discover/manage.rs`: `webview_manage`
    reacts to each message from the view or the worker by updating the
    best fitness and the paused flag, sending at most one order to the
    worker and posting one update to the view; and `add_test_input`, which
    saves an input as a new custom test. */
module DiscoverManager {
  import opened Ci
  import opened Util
  import opened TestDir
  import W = DiscoverWorker
  import C = DiscoverComms

  /** One item of the merged stream the manager reads. */
  datatype ManagerMessage = Note(note: C.Note) | Report(report: W.Report)

  /** The manager's two locals: the best fitness among the failing rows of
      the session and whether it believes the worker paused. */
  datatype ManagerState = ManagerState(bestFitness: Option<int>, paused: bool)

  const Initial := ManagerState(None, false)

  /** What handling one message does besides updating the state: the order
      sent to the worker, the update posted to the view, the input handed
      to a spawned `add_test_input`, and the error shown to the user. */
  datatype Effects = Effects(order: Option<W.WorkerOrder>, food: C.Food, spawned: Option<string>, shown: Option<Error>)

  predicate IsFailing(row: Row) {
    !row.solution.verdict.IsSuccess()
  }

  /** A row sets a new best when the solution failed on it and its fitness
      is strictly above the best so far, or there is none. */
  predicate NewBest(best: Option<int>, row: Row) {
    IsFailing(row) && (best.None? || best.value < row.fitness)
  }

  /** The body of `webview_manage`'s loop for one message. */
  function Step(s: ManagerState, m: ManagerMessage): (r: (ManagerState, Effects))
    ensures m.Report? ==> r.1.order.None? && r.1.spawned.None?
    ensures r.1.spawned.Some? <==> m.Note? && m.note.Save?
    ensures r.1.shown.Some? <==> m.Report? && m.report.Err?
    ensures r.1.food.Row? <==> m.Report? && m.report.Ok?
    ensures r.0.bestFitness != s.bestFitness ==>
      Clears(m) || (m.Report? && m.report.Ok? && NewBest(s.bestFitness, m.report.value))
  {
    match m
    case Note(n) =>
      (match n
       case Start => (s.(paused := false), Effects(Some(W.WorkerOrder.Start), C.State(true, false), None, None))
       case Pause => (s.(paused := true), Effects(Some(W.WorkerOrder.Pause), C.State(false, false), None, None))
       case Reset => (ManagerState(None, false), Effects(Some(W.WorkerOrder.Reset), C.State(false, true), None, None))
       case Save(input) =>
         (s.(paused := true), Effects(if s.paused then None else Some(W.WorkerOrder.Pause), C.State(false, false), Some(input), None)))
    case Report(r) =>
      if r.Ok? then
        var row := r.value;
        var best := NewBest(s.bestFitness, row);
        (if best then s.(bestFitness := Some(row.fitness)) else s,
         Effects(None, C.Food.Row(row.number, row.solution.verdict, row.fitness, if best then Some(row.input) else None), None, None))
      else
        (ManagerState(None, false), Effects(None, C.State(false, true), None, Some(r.error)))
  }

  /** The state after handling `msgs`, starting from the initial one. */
  function StateAfter(msgs: seq<ManagerMessage>): ManagerState {
    if msgs == [] then Initial
    else Step(StateAfter(msgs[..|msgs| - 1]), msgs[|msgs| - 1]).0
  }

  /** The effects of handling `msgs`, one per message. */
  function EffectsOf(msgs: seq<ManagerMessage>): (e: seq<Effects>)
    ensures |e| == |msgs|
  {
    if msgs == [] then []
    else
      var init := msgs[..|msgs| - 1];
      EffectsOf(init) + [Step(StateAfter(init), msgs[|msgs| - 1]).1]
  }

  lemma FoldSnoc(msgs: seq<ManagerMessage>, m: ManagerMessage)
    ensures StateAfter(msgs + [m]) == Step(StateAfter(msgs), m).0
    ensures EffectsOf(msgs + [m]) == EffectsOf(msgs) + [Step(StateAfter(msgs), m).1]
  {
    assert (msgs + [m])[..|msgs|] == msgs;
  }

  /** The effects of message `k` are those of one step from the state the
      earlier messages led to. */
  lemma {:induction false} EffectsAt(msgs: seq<ManagerMessage>, k: nat)
    requires k < |msgs|
    ensures EffectsOf(msgs)[k] == Step(StateAfter(msgs[..k]), msgs[k]).1
  {
    var init := msgs[..|msgs| - 1];
    if k < |msgs| - 1 {
      EffectsAt(init, k);
      assert init[..k] == msgs[..k];
    }
  }

  /** The messages of the first `n` stream items, all of them `Ok`. */
  function Messages(stream: seq<Result<ManagerMessage>>, n: nat): (msgs: seq<ManagerMessage>)
    requires n <= |stream| && forall i :: 0 <= i < n ==> stream[i].Ok?
    ensures |msgs| == n && forall i :: 0 <= i < n ==> stream[i] == Ok(msgs[i])
  {
    seq(n, i requires 0 <= i < n => stream[i].value)
  }

  lemma MessagesSnoc(stream: seq<Result<ManagerMessage>>, n: nat)
    requires n < |stream| && forall i :: 0 <= i <= n ==> stream[i].Ok?
    ensures Messages(stream, n + 1) == Messages(stream, n) + [stream[n].value]
  {
  }

  /** `webview_manage`'s loop over the merged stream: handle each message
      in turn and stop at the first stream error, which it returns. */
  method WebviewManage(stream: seq<Result<ManagerMessage>>) returns (effects: seq<Effects>, result: Result<()>)
    ensures var n := FirstErr(stream, 0);
      effects == EffectsOf(Messages(stream, n)) &&
      result == if n < |stream| then Err(stream[n].error) else Ok(())
  {
    var bestFitness: Option<int> := None;
    var paused := false;
    effects := [];
    var i := 0;
    while i < |stream|
      invariant i <= |stream| && forall k :: 0 <= k < i ==> stream[k].Ok?
      invariant ManagerState(bestFitness, paused) == StateAfter(Messages(stream, i))
      invariant effects == EffectsOf(Messages(stream, i))
    {
      if stream[i].Err? {
        return effects, Err(stream[i].error);
      }
      var msg := stream[i].value;
      ghost var before := ManagerState(bestFitness, paused);
      var order: Option<W.WorkerOrder> := None;
      var food: C.Food;
      var spawned: Option<string> := None;
      var shown: Option<Error> := None;
      match msg {
        case Note(note) =>
          match note {
            case Start =>
              paused := false;
              order := Some(W.WorkerOrder.Start);
              food := C.State(true, false);
            case Pause =>
              paused := true;
              order := Some(W.WorkerOrder.Pause);
              food := C.State(false, false);
            case Reset =>
              bestFitness := None;
              paused := false;
              order := Some(W.WorkerOrder.Reset);
              food := C.State(false, true);
            case Save(input) =>
              if !paused {
                paused := true;
                order := Some(W.WorkerOrder.Pause);
              }
              food := C.State(false, false);
              spawned := Some(input);
          }
        case Report(report) =>
          match report {
            case Ok(row) =>
              var isFailed := !row.solution.verdict.IsSuccess();
              var newBest := isFailed && (bestFitness.None? || bestFitness.value < row.fitness);
              if newBest {
                bestFitness := Some(row.fitness);
              }
              food := C.Food.Row(row.number, row.solution.verdict, row.fitness, if newBest then Some(row.input) else None);
            case Err(e) =>
              bestFitness := None;
              paused := false;
              food := C.State(false, true);
              shown := Some(e);
          }
      }
      assert (ManagerState(bestFitness, paused), Effects(order, food, spawned, shown)) == Step(before, msg);
      FoldSnoc(Messages(stream, i), msg);
      MessagesSnoc(stream, i);
      effects := effects + [Effects(order, food, spawned, shown)];
      i := i + 1;
    }
    result := Ok(());
  }

  /** How each view intent is handled, whatever the state: the order sent,
      the run state posted, and what happens to the two locals. */
  lemma NoteRules(s: ManagerState, n: C.Note)
    ensures var (s', e) := Step(s, Note(n));
      e.food.State? && e.shown.None? &&
      (n.Save? <==> e.spawned.Some?) &&
      (n.Reset? <==> e.food.reset) &&
      (n.Start? <==> e.food.running) &&
      (n.Reset? ==> s' == Initial && e.order == Some(W.WorkerOrder.Reset)) &&
      (!n.Reset? ==> s'.bestFitness == s.bestFitness) &&
      (n.Start? ==> !s'.paused && e.order == Some(W.WorkerOrder.Start)) &&
      (n.Pause? ==> s'.paused && e.order == Some(W.WorkerOrder.Pause)) &&
      (n.Save? ==> s'.paused && e.spawned == Some(n.input) &&
                   (e.order == Some(W.WorkerOrder.Pause) <==> !s.paused) &&
                   (e.order.None? <==> s.paused))
  {
  }

  /** How a row is handled: it is always posted with its number, verdict
      and fitness; its input travels with it exactly when it is a new
      best; the best fitness only grows, and only a new best changes it. */
  lemma OkReportRules(s: ManagerState, row: Row)
    ensures var (s', e) := Step(s, Report(Ok(row)));
      e.order.None? && e.spawned.None? && e.shown.None? && s'.paused == s.paused &&
      e.food.Row? && e.food.number == row.number && e.food.outcome == row.solution.verdict && e.food.fitness == row.fitness &&
      (e.food.input.Some? <==> NewBest(s.bestFitness, row)) &&
      (e.food.input.Some? ==> e.food.input.value == row.input) &&
      (NewBest(s.bestFitness, row) ==> s'.bestFitness == Some(row.fitness)) &&
      (!NewBest(s.bestFitness, row) ==> s' == s) &&
      (!IsFailing(row) ==> s' == s) &&
      (s.bestFitness.Some? ==> s'.bestFitness.Some? && s.bestFitness.value <= s'.bestFitness.value)
  {
  }

  /** A worker error clears the session: no best, not paused, the view is
      reset and the error is shown. */
  lemma ErrReportRules(s: ManagerState, err: Error)
    ensures var (s', e) := Step(s, Report(Err(err)));
      s' == Initial && e.order.None? && e.spawned.None? &&
      e.food == C.State(false, true) && e.shown == Some(err)
  {
  }

  /** Messages that clear the best fitness: a Reset intent or a worker
      error. */
  predicate Clears(m: ManagerMessage) {
    m == Note(C.Note.Reset) || (m.Report? && m.report.Err?)
  }

  /** The rows reported since the last message that cleared the session. */
  function SinceClear(msgs: seq<ManagerMessage>): seq<Row> {
    if msgs == [] then []
    else
      var m := msgs[|msgs| - 1];
      var init := msgs[..|msgs| - 1];
      if Clears(m) then []
      else if m.Report? then SinceClear(init) + [m.report.value]
      else SinceClear(init)
  }

  function Max(a: int, b: int): int {
    if a < b then b else a
  }

  /** The largest fitness among the failing rows, if any failed. */
  function MaxFailing(rows: seq<Row>): (m: Option<int>)
    ensures m.None? <==> forall i :: 0 <= i < |rows| ==> !IsFailing(rows[i])
    ensures m.Some? ==> exists i :: 0 <= i < |rows| && IsFailing(rows[i]) && rows[i].fitness == m.value
    ensures m.Some? ==> forall i :: 0 <= i < |rows| && IsFailing(rows[i]) ==> rows[i].fitness <= m.value
  {
    if rows == [] then None
    else
      var rest := MaxFailing(rows[1..]);
      assert forall i :: 1 <= i < |rows| ==> rows[i] == rows[1..][i - 1];
      if !IsFailing(rows[0]) then rest
      else if rest.None? then Some(rows[0].fitness)
      else Some(Max(rows[0].fitness, rest.value))
  }

  /** Adding a row to the end: the maximum moves to it exactly when it is
      a failing row above the old maximum. */
  lemma {:induction false} MaxFailingSnoc(rows: seq<Row>, row: Row)
    ensures MaxFailing(rows + [row]) ==
      if NewBest(MaxFailing(rows), row) then Some(row.fitness) else MaxFailing(rows)
  {
    if rows == [] {
      assert [row][1..] == [];
    } else {
      assert (rows + [row])[1..] == rows[1..] + [row];
      MaxFailingSnoc(rows[1..], row);
    }
  }

  /** The best fitness the manager keeps is the largest fitness among the
      failing rows reported since the last Reset or worker error. */
  lemma {:induction false} BestIsMaxSinceClear(msgs: seq<ManagerMessage>)
    ensures StateAfter(msgs).bestFitness == MaxFailing(SinceClear(msgs))
  {
    if msgs != [] {
      var init := msgs[..|msgs| - 1];
      var m := msgs[|msgs| - 1];
      BestIsMaxSinceClear(init);
      if m.Report? && m.report.Ok? {
        MaxFailingSnoc(SinceClear(init), m.report.value);
      }
    }
  }

  /** A row's input is posted exactly when the solution failed on it with
      a fitness above every failing row reported since the last Reset or
      worker error. */
  lemma InputMarksRecord(msgs: seq<ManagerMessage>, k: nat)
    requires k < |msgs| && msgs[k].Report? && msgs[k].report.Ok?
    ensures var row, food := msgs[k].report.value, EffectsOf(msgs)[k].food;
      food.Row? && food.input.Some? <==>
        IsFailing(row) && forall i :: 0 <= i < |SinceClear(msgs[..k])| && IsFailing(SinceClear(msgs[..k])[i]) ==>
          SinceClear(msgs[..k])[i].fitness < row.fitness
  {
    EffectsAt(msgs, k);
    BestIsMaxSinceClear(msgs[..k]);
  }

  /** Intents after which the manager believes the worker paused. */
  predicate Pauses(m: ManagerMessage) {
    m == Note(C.Note.Pause) || (m.Note? && m.note.Save?)
  }

  /** Messages after which it believes the worker not paused. */
  predicate Unpauses(m: ManagerMessage) {
    m == Note(C.Note.Start) || Clears(m)
  }

  /** Some Pause or Save intent has not been followed by a Start, a Reset
      or a worker error. */
  ghost predicate PauseStands(msgs: seq<ManagerMessage>) {
    exists k :: 0 <= k < |msgs| && Pauses(msgs[k]) && forall j :: k < j < |msgs| ==> !Unpauses(msgs[j])
  }

  /** The paused flag holds exactly while a Pause or Save stands. */
  lemma {:induction false} PausedMeaning(msgs: seq<ManagerMessage>)
    ensures StateAfter(msgs).paused <==> PauseStands(msgs)
  {
    if msgs != [] {
      var n := |msgs| - 1;
      var init := msgs[..n];
      var m := msgs[n];
      PausedMeaning(init);
      assert forall i :: 0 <= i < n ==> init[i] == msgs[i];
      if Pauses(m) {
        assert Pauses(msgs[n]);
      } else if Unpauses(m) {
        forall k | 0 <= k < |msgs| && Pauses(msgs[k])
          ensures exists j :: k < j < |msgs| && Unpauses(msgs[j])
        {
          assert Unpauses(msgs[n]);
        }
      } else {
        assert StateAfter(msgs).paused == StateAfter(init).paused;
        if PauseStands(init) {
          var k :| 0 <= k < |init| && Pauses(init[k]) && forall j :: k < j < |init| ==> !Unpauses(init[j]);
          assert Pauses(msgs[k]);
        }
        if PauseStands(msgs) {
          var k :| 0 <= k < |msgs| && Pauses(msgs[k]) && forall j :: k < j < |msgs| ==> !Unpauses(msgs[j]);
          assert k < n;
          assert Pauses(init[k]);
        }
      }
    }
  }

  /** Within a session the best fitness never falls: appending messages
      none of which is a Reset or a worker error keeps a best at least as
      high, whatever intents and rows they are. */
  lemma {:induction false} SessionKeepsBest(msgs: seq<ManagerMessage>, more: seq<ManagerMessage>)
    requires forall i :: 0 <= i < |more| ==> !Clears(more[i])
    ensures StateAfter(msgs).bestFitness.Some? ==>
      StateAfter(msgs + more).bestFitness.Some? && StateAfter(msgs).bestFitness.value <= StateAfter(msgs + more).bestFitness.value
    decreases |more|
  {
    if more == [] {
      assert msgs + more == msgs;
    } else {
      var init := more[..|more| - 1];
      var last := more[|more| - 1];
      assert !Clears(last);
      SessionKeepsBest(msgs, init);
      assert msgs + more == (msgs + init) + [last];
      FoldSnoc(msgs + init, last);
      match last {
        case Note(n) => NoteRules(StateAfter(msgs + init), n);
        case Report(r) => OkReportRules(StateAfter(msgs + init), r.value);
      }
    }
  }

  /** While every report is a row the solution passes, whatever intents
      arrive in between, the manager never records a best and never posts
      an input. */
  lemma {:induction false} PassingRowsPostNoInput(msgs: seq<ManagerMessage>)
    requires forall i :: 0 <= i < |msgs| && msgs[i].Report? ==> msgs[i].report.Ok? && !IsFailing(msgs[i].report.value)
    ensures StateAfter(msgs).bestFitness.None?
    ensures forall i :: 0 <= i < |msgs| && msgs[i].Report? ==> EffectsOf(msgs)[i].food.Row? && EffectsOf(msgs)[i].food.input.None?
  {
    if msgs != [] {
      var init := msgs[..|msgs| - 1];
      PassingRowsPostNoInput(init);
      assert EffectsOf(msgs)[..|init|] == EffectsOf(init);
    }
  }

  /** `add_test_input`: build the brute force (`build`), run it on the
      input (`run`), list the custom test directory (`listing`, after
      creating it), and write `<id>.in` and `<id>.out` for the smallest
      positive id no numeric file stem there takes. */
  function AddTestInput(input: string, build: Result<()>, run: Result<Outcome>, listing: Result<seq<string>>): (r: Result<seq<FileWrite>>)
    ensures build.Err? ==> r == Err(build.error)
    ensures build.Ok? && run.Err? ==> r == Err(run.error)
    ensures build.Ok? && run.Ok? && !run.value.IsSuccess() ==>
      r == Err(Failed("brut failed when generating output for the added test"))
    ensures build.Ok? && run.Ok? && run.value.IsSuccess() && listing.Err? ==> r == Err(listing.error)
    ensures build.Ok? && run.Ok? && run.value.IsSuccess() && listing.Ok? ==> r.Ok?
    ensures r.Ok? ==> (build.Ok? && run.Ok? && run.value.IsSuccess() && listing.Ok? &&
      exists id :: IsMexFrom(1, TakenIds(listing.value), id) && r.value == TestFiles(id, input, run.value.stdout))
  {
    if build.Err? then Err(build.error)
    else if run.Err? then Err(run.error)
    else if !run.value.IsSuccess() then Err(Failed("brut failed when generating output for the added test"))
    else if listing.Err? then Err(listing.error)
    else
      var id := Mex(1, UsedIds(listing.value));
      TakenIdsAreUsedIds(listing.value);
      Ok(TestFiles(id, input, run.value.stdout))
  }
}
