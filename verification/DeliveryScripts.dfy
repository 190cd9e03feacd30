/** The mover's script as an act of the system. */
module DeliveryScripts {
  import opened DeliveryState
  import opened DeliveryRun

  lemma {:induction false} PopJobsIsPop(w: World, due: seq<Job>)
    ensures PopJobs(w, due).r == Pop(w.r, due)
    decreases |due|
  {
    if due != [] {
      PopJobsIsPop(PopOneJob(w, due[0]), due[1..]);
    }
  }

  /** Moving due jobs does to the keys what the script does: each due job of a registered recipient's present generation
      becomes one new entry, in order, the others become none, and exactly the due jobs leave the delayed set. */
  lemma PopIsAct(w: World, clock: int, limit: nat, due: seq<Job>) returns (moved: seq<nat>)
    requires IsDue(w.r.delayed, clock, limit, due)
    ensures Enabled(w, PopMature(clock, limit, due))
    ensures After(w, PopMature(clock, limit, due)).r == Pop(w.r, due)
    ensures Moves(w.r, After(w, PopMature(clock, limit, due)).r, due, moved)
  {
    hide AdvanceOp, RenewOp, SettleEntry, Moves;
    PopJobsIsPop(w, due);
    moved := PopMoves(w.r, due);
  }
}
