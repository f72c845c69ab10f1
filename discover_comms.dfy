/** The messages exchanged between the discovery view and its manager. */
module DiscoverComms {
  import Ci

  /** A UI intent. */
  datatype Note = Start | Pause | Reset | Save(input: string)

  /** A UI update: the run state, or one discovery row. `input` travels
      only with a row that set a new best fitness. */
  datatype Food =
    | State(running: bool, reset: bool)
    | Row(number: nat, outcome: Ci.Verdict, fitness: int, input: Ci.Option<string>)
}
