/** The parts of Checkmk's plugin API that the checks produce: monitoring
    states, check results and discovered services. */
module CheckmkApi {
  import opened PyBase

  /** The agent output of a section: one list of strings per line. */
  type StringTable = seq<seq<string>>

  predicate RowsOfWidth(table: StringTable, width: nat) {
    forall i :: 0 <= i < |table| ==> |table[i]| == width
  }

  /** Checkmk's monitoring states; `State(n)` maps 0, 1, 2, 3 to them in this order. */
  datatype State = OK | WARN | CRIT | UNKNOWN

  /** The ranking `State.best` uses: OK is best, then WARN, then UNKNOWN,
      and CRIT is worst. It is not the numeric order of the states. */
  function Rank(s: State): nat {
    match s
    case OK => 0
    case WARN => 1
    case UNKNOWN => 2
    case CRIT => 3
  }

  lemma RankInjective(a: State, b: State)
    ensures Rank(a) == Rank(b) <==> a == b
  {
  }

  /** `State.best(*states)`: the best state among a non-empty list. */
  function Best(states: seq<State>): (b: State)
    requires |states| > 0
    ensures b in states
    ensures forall i :: 0 <= i < |states| ==> Rank(b) <= Rank(states[i])
  {
    if |states| == 1 then states[0]
    else
      var rest := Best(states[1..]);
      if Rank(states[0]) <= Rank(rest) then states[0] else rest
  }

  /** A result carries a summary (shown in the service's status line) or a
      notice (shown only in the details). */
  datatype Text = Summary(text: string) | Notice(text: string)

  /** `Result(state=..., summary=... | notice=..., details=...)` */
  datatype Result = Result(state: State, text: Text, details: Option<string>)

  /** `Service(item=...)`; `Service()` has no item. */
  datatype Service = Service(item: Option<string>)
}
