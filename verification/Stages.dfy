/** Stages of an experiment and their order (api/v2alpha2/constants.go). */
module Stages {

  datatype Stage = Waiting | Initializing | Running | Finishing | Completed

  const ORDERED_STAGES := [Waiting, Initializing, Running, Finishing, Completed]

  function StageIndex(s: Stage, stages: seq<Stage>): int {
    IndexFrom(s, stages, 0)
  }

  function IndexFrom(s: Stage, stages: seq<Stage>, pos: nat): (i: int)
    requires pos <= |stages|
    ensures i == -1 || (pos <= i < |stages| && stages[i] == s && s !in stages[pos..i])
    ensures i == -1 ==> s !in stages[pos..]
    decreases |stages| - pos
  {
    if pos == |stages| then -1
    else if stages[pos] == s then pos
    else
      assert stages[pos..] == [stages[pos]] + stages[pos + 1..];
      var i := IndexFrom(s, stages, pos + 1);
      assert i != -1 ==> stages[pos..i] == [stages[pos]] + stages[pos + 1..i];
      i
  }

  predicate After(to: Stage, from: Stage) {
    StageIndex(to, ORDERED_STAGES) > StageIndex(from, ORDERED_STAGES)
  }

  function Rank(s: Stage): nat {
    match s
    case Waiting => 0
    case Initializing => 1
    case Running => 2
    case Finishing => 3
    case Completed => 4
  }

  /** The search through the list is the order of the stages' declaration. */
  lemma AfterIsRank(to: Stage, from: Stage)
    ensures After(to, from) <==> Rank(to) > Rank(from)
  {
  }
}
