/** Runs in which a profile operation runs beside a deletion, or a reservation is given back after its life. The first
    two begin with a fence, a wait loop that sees zero, and a registration before the clean-up is over; the clean-up
    then takes what the new generation has been given. In the third the first of two sends outlives its reservation,
    and gives it back while the second is under way. */
module DeliveryLimits {
  import opened DeliveryState
  import opened DeliveryRun
  import opened DeliveryInvariant
  import opened DeliverySteps
  import opened DeliveryTheorems
  import DeliveryOnce
  import opened DeliveryExtend

  /** A deletion whose lock has lapsed goes on after its user has registered again, and the post is accepted. */
  lemma OverlappingDeletion() returns (run: seq<World>, acts: seq<Act>)
    ensures IsRun(run, acts) && |acts| == 4 && Overlaps(run[2], acts[2], 7) && acts[3] == EnqueueAlert(POST, 1, false, 0)
    ensures DeliveryOnce.Accepts(run[3], acts[3], POST, 1)
    ensures run[4].r.entries == map[1 := Job(POST, 1, 1)] && run[4].r.pending == map[] && Generation(run[4].r, 7) == 1
    ensures run[4].h.log == map[1 := Job(POST, 1, 1)] && run[4].h.marked == map[] && Job(POST, 1, 1) in run[4].h.jobs
    ensures run[4].r.delayed.Keys == {Job(POST, 2, 1), Job(POST, 3, 1)}
    ensures run[4].r.now == 0 && run[4].r.deleted == {} && 7 in run[4].h.overlapped
  {
    run, acts := [Beginning()], [];
    run, acts := Extend(run, acts, FenceUser(7, 1));
    run, acts := Extend(run, acts, SeeZero(7));
    run, acts := Extend(run, acts, RegisterUser(7));
    run, acts := Extend(run, acts, EnqueueAlert(POST, 1, false, 0));
  }

  /** It drops the new enqueue marker: the post is accepted twice under one generation at one instant. */
  lemma OverlapAcceptsTwice() returns (run: seq<World>, acts: seq<Act>)
    ensures IsRun(run, acts) && |acts| == 6 && Overlaps(run[2], acts[2], 7)
    ensures DeliveryOnce.Accepts(run[3], acts[3], POST, 1) && DeliveryOnce.Accepts(run[5], acts[5], POST, 1) && run[3].r.now == run[5].r.now
  {
    run, acts := OverlappingDeletion();
    run, acts := Unmark(run, acts);
    hide AdvanceOp, RenewOp, PopJobs, SettleEntry;
    run, acts := Extend(run, acts, EnqueueAlert(POST, 1, false, 0));
  }

  lemma Unmark(run: seq<World>, acts: seq<Act>) returns (run': seq<World>, acts': seq<Act>)
    requires IsRun(run, acts) && MayClean(run[|acts|], 7)
    ensures IsRun(run', acts') && Extends(run, acts, run', acts') && |acts'| == |acts| + 1
    ensures run'[|acts'|].r == run[|acts|].r.(enqueued := run[|acts|].r.enqueued - {POST})
  {
    hide AdvanceOp, RenewOp, PopJobs, SettleEntry;
    run', acts' := Extend(run, acts, DropMarker(POST));
  }

  /** Or its scrub takes the new entry: the first stage of the present generation is nowhere, and was never marked. */
  lemma OverlapLosesJob() returns (run: seq<World>, acts: seq<Act>)
    ensures IsRun(run, acts) && |acts| == 6 && Overlaps(run[2], acts[2], 7)
    ensures var w, j := run[6], Job(POST, 1, 1);
      && j in w.h.jobs && Allowed(w.r, j) && j !in w.h.marked && j !in w.r.delayed
      && w.r.entries == map[] && w.r.pending == map[]
  {
    run, acts := OverlappingDeletion();
    run, acts := Scrub1(run, acts);
  }

  /** The scrub of entry 1, in two commands. */
  lemma Scrub1(run: seq<World>, acts: seq<Act>) returns (run': seq<World>, acts': seq<Act>)
    requires IsRun(run, acts) && CleansEntry(run[|acts|], 1)
    ensures IsRun(run', acts') && Extends(run, acts, run', acts') && |acts'| == |acts| + 2
    ensures run'[|acts'|] == ScrubDeleted(ScrubAcked(run[|acts|], 1), 1)
  {
    hide ScrubAcked, ScrubDeleted;
    hide AdvanceOp, RenewOp, PopJobs, SettleEntry;
    assert CleansEntry(ScrubAcked(run[|acts|], 1), 1) by { StillCleans(run[|acts|], 1); }
    run', acts' := Extend(run, acts, ScrubAck(1));
    run', acts' := Extend(run', acts', ScrubDelete(1));
  }

  lemma StillCleans(w: World, id: nat)
    requires CleansEntry(w, id)
    ensures CleansEntry(ScrubAcked(w, id), id)
  {
  }

  const LATER := Event(1, 2, 7, 600 * SECOND)

  /** A send to user 7 is under way. */
  ghost predicate UnderWay(w: World, t: nat) {
    t in w.ops && w.ops[t].point == Sending && w.ops[t].job.event.recipient == 7 && Active(w, w.ops[t])
  }

  lemma Reserve(run: seq<World>, acts: seq<Act>, t: nat, id: nat, j: Job) returns (run': seq<World>, acts': seq<Act>)
    requires IsRun(run, acts) && AtReservation(run[|acts|], t, id, j) && Allowed(run[|acts|].r, j)
    ensures IsRun(run', acts') && run'[|acts'|] == Begun(run[|acts|], t)
  {
    hide Look, RenewOp, SettleEntry;
    run', acts' := Extend(run, acts, Advance(t, Favourable));
  }

  /** What the world is like when the first sender's reservation has lapsed and the sender has been cancelled. */
  ghost predicate Lapsed(w: World, t: nat) {
    && w.r.now == INFLIGHT_LIFE && w.r.deleted == {} && w.r.generations == map[] && w.r.enqueued.Keys == {POST}
    && t in w.ops && w.ops[t].point == EndSend && w.ops[t].job == Job(POST, 1, 0) && w.ops[t].reserved
    && w.r.lastId == 1 && w.r.cursor == 1 && Inflight(w.r, 7) == 0 && w.r.leases.Keys <= {Stage(POST, 1)}
    && w.r.marks == map[] && w.deletions == map[] && w.h.used == map[] && w.h.overlapped == {}
    && t in w.h.reservations && w.h.reservations[t] == Reservation(7, 0)
  }

  lemma FirstLapses() returns (run: seq<World>, acts: seq<Act>, t: nat)
    ensures IsRun(run, acts) && Lapsed(run[|acts|], t)
  {
    run, acts := FirstOffered();
    var w := run[|acts|];
    run, acts, t := EntryReaches(run, acts, 1);
    var w1 := run[|acts|];
    run, acts := Reserve(run, acts, t, 1, Job(POST, 1, 0));
    FirstBegins(w, w1, t);
    BegunLapses(Begun(w1, t), t);
    hide Begun, Lapsed, Leave, FirstBegun;
    run, acts := WaitAndCancel(run, acts, t);
  }

  lemma WaitAndCancel(run: seq<World>, acts: seq<Act>, t: nat) returns (run': seq<World>, acts': seq<Act>)
    requires IsRun(run, acts) && t in run[|acts|].ops
    ensures IsRun(run', acts') && run'[|acts'|] == Leave(Later(run[|acts|]), t)
  {
    hide Leave;
    hide AdvanceOp, RenewOp, PopJobs, SettleEntry;
    run', acts' := Extend(run, acts, Tick(INFLIGHT_LIFE));
    run', acts' := Extend(run', acts', Cancel(t));
  }

  function Later(w: World): World {
    w.(r := w.r.(now := w.r.now + INFLIGHT_LIFE))
  }

  lemma FirstOffered() returns (run: seq<World>, acts: seq<Act>)
    ensures IsRun(run, acts) && run[|acts|] == Accept(Beginning(), POST, 0, false, 0)
    ensures MaySendAt(run[|acts|], Job(POST, 1, 0), 0)
  {
    run, acts := [Beginning()], [];
    run, acts := Extend(run, acts, EnqueueAlert(POST, 0, false, 0));
  }

  /** The first sender has reserved its slot at time 0. */
  ghost predicate FirstBegun(w: World, t: nat) {
    && w.r.now == 0 && w.r.deleted == {} && w.r.generations == map[] && w.r.enqueued.Keys == {POST}
    && t in w.ops && w.ops[t].job == Job(POST, 1, 0) && w.ops[t].reserved
    && w.r.lastId == 1 && w.r.cursor == 1 && w.r.inflight == map[7 := Expiring(1, INFLIGHT_LIFE)]
    && w.r.leases.Keys <= {Stage(POST, 1)} && w.r.marks == map[]
    && w.deletions == map[] && w.h.used == map[] && w.h.overlapped == {}
    && t in w.h.reservations && w.h.reservations[t] == Reservation(7, 0)
  }

  lemma FirstBegins(w: World, w1: World, t: nat)
    requires w == Accept(Beginning(), POST, 0, false, 0) && KeepsQueue(w, w1) && AtReservation(w1, t, 1, Job(POST, 1, 0))
    requires OtherLeases(w, w1, Stage(POST, 1)) && w1.r.cursor == 1
    ensures FirstBegun(Begun(w1, t), t)
  {
    hide Inflight;
    assert Inflight(w1.r, 7) == 0 by { NoCounter(w1.r); }
  }

  lemma NoCounter(r: Redis)
    requires r.inflight == map[]
    ensures Inflight(r, 7) == 0
  {
  }

  lemma BegunLapses(w: World, t: nat)
    requires FirstBegun(w, t)
    ensures Lapsed(Leave(Later(w), t), t)
  {
  }

  /** A second post is accepted, and its send begins. */
  ghost predicate SecondUnderWay(w: World, t: nat, second: nat) {
    && UnderWay(w, second) && second != t && t in w.ops && w.ops[t].point == EndSend && w.ops[t].job == Job(POST, 1, 0)
    && t in w.h.reservations && w.h.reservations[t] == Reservation(7, 0) && w.r.now == INFLIGHT_LIFE
    && Inflight(w.r, 7) == 1 && w.deletions == map[] && w.h.used == map[] && w.h.overlapped == {}
  }

  lemma SecondBegins(run: seq<World>, acts: seq<Act>, t: nat) returns (run': seq<World>, acts': seq<Act>, second: nat)
    requires IsRun(run, acts) && Lapsed(run[|acts|], t)
    ensures IsRun(run', acts') && SecondUnderWay(run'[|acts'|], t, second)
  {
    run', acts' := SecondOffered(run, acts, t);
    var w := run'[|acts'|];
    run', acts', second := EntryReaches(run', acts', 2);
    BegunSecond(run[|acts|], w, run'[|acts'|], t, second);
    hide Begun, SecondUnderWay, Lapsed, Accept, KeepsQueue, AtReservation, OtherLeases;
    run', acts' := Reserve(run', acts', second, 2, Job(LATER, 1, 0));
  }

  lemma SecondOffered(run: seq<World>, acts: seq<Act>, t: nat) returns (run': seq<World>, acts': seq<Act>)
    requires IsRun(run, acts) && Lapsed(run[|acts|], t)
    ensures IsRun(run', acts') && run'[|acts'|] == Accept(run[|acts|], LATER, 0, false, INFLIGHT_LIFE)
    ensures MaySendAt(run'[|acts'|], Job(LATER, 1, 0), INFLIGHT_LIFE) && LeaseFree(run'[|acts'|].r, Stage(LATER, 1))
  {
    hide AdvanceOp, RenewOp, PopJobs, SettleEntry;
    run', acts' := Extend(run, acts, EnqueueAlert(LATER, 0, false, INFLIGHT_LIFE));
  }

  lemma BegunSecond(w: World, w1: World, w2: World, t: nat, second: nat)
    requires Lapsed(w, t) && w1 == Accept(w, LATER, 0, false, INFLIGHT_LIFE) && KeepsQueue(w1, w2)
    requires AtReservation(w2, second, 2, Job(LATER, 1, 0)) && second != t && t in w2.ops && w2.ops[t] == w1.ops[t]
    ensures SecondUnderWay(Begun(w2, second), t, second) && Allowed(w2.r, Job(LATER, 1, 0))
  {
  }

  /** The first reservation, given back after its life, clears a counter that by then counts another: the deletion sees
      zero while a send is under way. */
  lemma LateReturnUncovers() returns (run: seq<World>, acts: seq<Act>, t: nat)
    ensures IsRun(run, acts) && UnderWay(run[|acts|], t) && CleaningUser(run[|acts|], 7)
    ensures 7 in run[|acts|].h.late && 7 !in run[|acts|].h.overlapped
  {
    var first;
    run, acts, first := FirstLapses();
    run, acts, t := SecondBegins(run, acts, first);
    var w := run[|acts|];
    EndAdvances(w, first);
    ThenZero(w, first, t);
    hide SecondUnderWay, Ended, Fenced, ZeroSeen, UnderWay, AdvanceOp, After, Enabled;
    run, acts := Extend(run, acts, Advance(first, Favourable));
    run, acts := FenceAndZero(run, acts);
  }

  lemma FenceAndZero(run: seq<World>, acts: seq<Act>) returns (run': seq<World>, acts': seq<Act>)
    requires IsRun(run, acts) && 1 !in Used(run[|acts|], 7)
    requires var w2 := Fenced(run[|acts|], 7, 1); 7 in w2.deletions && Inflight(w2.r, 7) == 0
    ensures IsRun(run', acts') && run'[|acts'|] == ZeroSeen(Fenced(run[|acts|], 7, 1), 7)
  {
    hide Fenced;
    hide AdvanceOp, RenewOp, PopJobs, SettleEntry;
    run', acts' := Extend(run, acts, FenceUser(7, 1));
    run', acts' := Extend(run', acts', SeeZero(7));
  }

  lemma ThenZero(w: World, first: nat, t: nat)
    requires SecondUnderWay(w, first, t)
    ensures var w1 := Ended(w, first); var w2 := Fenced(w1, 7, 1);
      && 1 !in Used(w1, 7) && 7 in w2.deletions && Inflight(w2.r, 7) == 0
      && UnderWay(ZeroSeen(w2, 7), t) && CleaningUser(ZeroSeen(w2, 7), 7)
      && 7 in ZeroSeen(w2, 7).h.late && 7 !in ZeroSeen(w2, 7).h.overlapped
  {
    EndClears(w.r, 7);
  }
}
