/** The durable run lifecycle. */
module RunStatus {

  datatype Status = Starting | Running | Completed | Failed | Interrupted

  predicate IsTerminal(status: Status) {
    status in {Completed, Failed, Interrupted}
  }

  /** The declared successor relation. */
  predicate MayFollow(from: Status, to: Status) {
    || (from == Starting && to in {Running, Failed, Interrupted})
    || (from == Running && to in {Completed, Failed, Interrupted})
  }

  /** Every write of a status sequence is a declared successor of the one before it. */
  predicate LegalPath(from: Status, path: seq<Status>)
    decreases |path|
  {
    path == [] || (MayFollow(from, path[0]) && LegalPath(path[0], path[1..]))
  }

  /** A legal path from admission never goes on after a terminal status, and is at most
      one `Running` and one terminal write long. */
  lemma {:induction false} LegalPathsEndAtTheFirstTerminal(from: Status, path: seq<Status>)
    requires LegalPath(from, path)
    ensures IsTerminal(from) ==> path == []
    ensures forall i :: 0 <= i < |path| && IsTerminal(path[i]) ==> i == |path| - 1
    ensures |path| <= (if from == Starting then 2 else if from == Running then 1 else 0)
    decreases |path|
  {
    if path == [] {
    } else {
      LegalPathsEndAtTheFirstTerminal(path[0], path[1..]);
      forall i | 0 <= i < |path| && IsTerminal(path[i]) ensures i == |path| - 1 {
        if i > 0 {
          assert path[i] == path[1..][i - 1];
        }
      }
    }
  }
}
