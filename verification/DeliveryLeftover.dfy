/** What a mark left over by a deletion that stopped half-way does to the stages of the next generation. */
module DeliveryLeftover {
  import opened DeliveryState
  import opened DeliveryRun
  import opened DeliveryInvariant
  import opened DeliveryProofs
  import opened DeliverySteps
  import opened DeliveryTheorems
  import opened DeliveryOnce
  import opened DeliveryChain
  import opened DeliveryAcceptance
  import opened DeliveryExtend

  // ---- Every mark outlives the time in which a repeat may still be sent -----------------------------------------

  /** The mark was written after its post's date, give or take the clock. */
  predicate MarkLasts(w: World, s: Stage)
    requires s in w.r.marks
  {
    s.event.posted + MARK_LIFE <= w.r.marks[s].expires + CLOCK_SKEW
  }

  lemma StepMarkLasts(w: World, a: Act, s: Stage)
    requires Inv(w) && Enabled(w, a) && s in After(w, a).r.marks && (s in w.r.marks ==> MarkLasts(w, s))
    ensures MarkLasts(After(w, a), s)
  {
    if Settling(w, a) {
      StepMarks(w, a);
      JobAccepted(w, a.token);
      var j := w.ops[a.token].job;
      assert AcceptedOk(w, (j.event, j.generation));
    } else if a.DropMark? {
      DropMarkEffect(w, a.stage);
    } else {
      StepSameMarks(w, a);
    }
    hide After, Enabled, Inv;
  }

  lemma {:induction false} MarksLast(run: seq<World>, acts: seq<Act>, i: nat, s: Stage)
    requires IsRun(run, acts) && i < |run| && s in run[i].r.marks
    ensures MarkLasts(run[i], s)
  {
    hide After, Enabled, Inv;
    if i > 0 {
      if s in run[i - 1].r.marks {
        MarksLast(run, acts, i - 1, s);
      }
      Reachable(run, acts, i - 1);
      StepMarkLasts(run[i - 1], acts[i - 1], s);
    }
  }

  // ---- A gap in the marks at the acceptance breaks the chain -----------------------------------------------------

  /** The event is accepted for the first time under the generation, with its repeats, at the server's time. */
  predicate AcceptsFresh(w: World, a: Act, e: Event, g: nat) {
    FirstAccepts(w, a, e, g) && !a.stale && a.clock == w.r.now
  }

  function Delay(step: nat): nat {
    if step <= 2 then DELAY_2 else DELAY_3
  }

  lemma AcceptedDelayed(w: World, a: Act, e: Event, g: nat, step: nat)
    requires Enabled(w, a) && AcceptsFresh(w, a, e, g) && 2 <= step <= 3
    ensures var w' := After(w, a); var j := Job(e, step, g);
      && j in w'.r.delayed && DueAt(w', j) == w.r.now + Delay(step) && Allowed(w'.r, j)
      && w'.r.marks == w.r.marks && w'.r.now == w.r.now && w'.h.marked == w.h.marked
  {
  }

  /** Wherever the system stands when a generation first accepts an event: if a live mark says that stage `s` was sent
      and none says so of the stage after it, then the run can go on so that the stage after it is sent under that
      generation although stage `s` never was. */
  lemma GapBreaksChain(run: seq<World>, acts: seq<Act>, a: nat, e: Event, g: nat, s: nat) returns (run': seq<World>, acts': seq<Act>)
    requires IsRun(run, acts) && |acts| == a + 1 && AcceptsFresh(run[a], acts[a], e, g) && 1 <= s <= 2
    requires HasMark(run[a].r, Stage(e, s), Sent) && !HasMark(run[a].r, Stage(e, s + 1), Sent)
    requires run[a].r.now + Delay(s + 1) - e.posted <= FRESHNESS
    ensures IsRun(run', acts') && Extends(run, acts, run', acts') && |acts'| > |acts|
    ensures BeginsSend(run'[|acts'| - 1], acts'[|acts'| - 1], Job(e, s + 1, g))
    ensures forall x :: Job(e, x, g) !in run'[|acts'| - 1].h.marked
  {
    hide After, Enabled, Inv, MaySendAt, DueAt, BeginsSend;
    var w, j := run[a], Job(e, s + 1, g);
    Reachable(run, acts, a);
    MarksLast(run, acts, a, Stage(e, s));
    NoneMarked(w, e, g);
    assert Enabled(w, acts[a]) && run[a + 1] == After(w, acts[a]);
    MayFollow(w, acts[a], e, g, s);
    var t, id;
    run', acts', t, id := DelayedReaches(run, acts, j);
    KeptAllowed(run[a + 1], run'[|acts'|], j);
    hide Keeps, Allowed, BeginsSend, AtReservation;
    run', acts' := GoOn(run', acts', t, id, j);
  }

  lemma KeptAllowed(w: World, w': World, j: Job)
    requires Keeps(w, w') && Allowed(w.r, j)
    ensures Allowed(w'.r, j) && w'.h.marked == w.h.marked
  {
  }

  lemma MayFollow(w: World, a: Act, e: Event, g: nat, s: nat)
    requires Enabled(w, a) && AcceptsFresh(w, a, e, g) && 1 <= s <= 2
    requires HasMark(w.r, Stage(e, s), Sent) && !HasMark(w.r, Stage(e, s + 1), Sent) && MarkLasts(w, Stage(e, s))
    requires w.r.now + Delay(s + 1) - e.posted <= FRESHNESS
    ensures var w', j := After(w, a), Job(e, s + 1, g);
      j in w'.r.delayed && MaySendAt(w', j, DueAt(w', j)) && Allowed(w'.r, j) && w'.h.marked == w.h.marked
  {
    AcceptedDelayed(w, a, e, g, s + 1);
    hide After;
  }

  /** An operation at its reservation begins its send. */
  lemma GoOn(run: seq<World>, acts: seq<Act>, t: nat, id: nat, j: Job) returns (run': seq<World>, acts': seq<Act>)
    requires IsRun(run, acts) && AtReservation(run[|acts|], t, id, j) && Allowed(run[|acts|].r, j)
    ensures IsRun(run', acts') && Extends(run, acts, run', acts') && |acts'| == |acts| + 1
    ensures run'[|acts|] == run[|acts|] && BeginsSend(run[|acts|], acts'[|acts|], j)
  {
    run', acts' := Extend(run, acts, Advance(t, Favourable));
  }

  lemma NoneMarked(w: World, e: Event, g: nat)
    requires Inv(w) && (e, g) !in w.h.accepted
    ensures forall x :: Job(e, x, g) !in w.h.marked
  {
    forall x ensures Job(e, x, g) !in w.h.marked {
      if Job(e, x, g) in w.h.marked {
        MarkedAccepted(w, Job(e, x, g));
      }
    }
  }

  // ---- Such an acceptance can be reached -------------------------------------------------------------------------

  /** The post was accepted under generation 0, and nobody has touched the recipient's keys. */
  ghost predicate Untouched(w: World) {
    && w.r.deleted == {} && w.r.generations == map[] && w.h.used == map[] && w.deletions == map[]
    && w.h.overlapped == {} && Inflight(w.r, 7) == 0
  }

  predicate SecondWaits(w: World) {
    Job(POST, 2, 0) in w.r.delayed && w.r.delayed[Job(POST, 2, 0)] == DELAY_2
  }

  ghost predicate SentUpTo(w: World, n: nat) {
    forall s :: 1 <= s <= 3 ==>
      if s <= n then HasMark(w.r, Stage(POST, s), Sent) && MARK_LIFE <= w.r.marks[Stage(POST, s)].expires
      else !HasMark(w.r, Stage(POST, s), Sent)
  }

  lemma OfferFirst() returns (run: seq<World>, acts: seq<Act>)
    ensures IsRun(run, acts) && Untouched(run[|acts|]) && SentUpTo(run[|acts|], 0) && run[|acts|].r.now == 0
    ensures SecondWaits(run[|acts|])
    ensures var r := run[|acts|].r; 1 in r.entries && r.entries[1] == Job(POST, 1, 0) && r.cursor == 0
  {
    run, acts := [Beginning()], [];
    run, acts := Extend(run, acts, EnqueueAlert(POST, 0, false, 0));
  }

  /** A stage at its reservation is sent and marked; the rest of what matters stays. */
  lemma SendOn(run: seq<World>, acts: seq<Act>, t: nat, id: nat, n: nat) returns (run': seq<World>, acts': seq<Act>)
    requires IsRun(run, acts) && Untouched(run[|acts|]) && SentUpTo(run[|acts|], n) && n < 3
    requires AtReservation(run[|acts|], t, id, Job(POST, n + 1, 0))
    ensures IsRun(run', acts') && Extends(run, acts, run', acts') && run'[|acts'|].r.now == run[|acts|].r.now
    ensures Untouched(run'[|acts'|]) && SentUpTo(run'[|acts'|], n + 1) && run'[|acts'|].r.delayed == run[|acts|].r.delayed
  {
    run', acts' := Complete(run, acts, t);
  }

  lemma SendFirst() returns (run: seq<World>, acts: seq<Act>)
    ensures IsRun(run, acts) && Untouched(run[|acts|]) && SentUpTo(run[|acts|], 1) && run[|acts|].r.now == 0
    ensures SecondWaits(run[|acts|])
  {
    var t;
    run, acts := OfferFirst();
    var w := run[|acts|];
    run, acts, t := EntryReaches(run, acts, 1);
    KeptUntouched(w, run[|acts|], 0);
    run, acts := SendOn(run, acts, t, 1, 0);
  }

  lemma KeptUntouched(w: World, w': World, n: nat)
    requires Untouched(w) && SentUpTo(w, n) && Keeps(w, w') && w'.r.now <= DELAY_2
    ensures Untouched(w') && SentUpTo(w', n)
  {
  }

  lemma SendSecond() returns (run: seq<World>, acts: seq<Act>)
    ensures IsRun(run, acts) && Untouched(run[|acts|]) && SentUpTo(run[|acts|], 2) && run[|acts|].r.now == DELAY_2
  {
    run, acts := SendFirst();
    var w := run[|acts|];
    var t, id;
    run, acts, t, id := DelayedReaches(run, acts, Job(POST, 2, 0));
    KeptUntouched(w, run[|acts|], 1);
    run, acts := SendOn(run, acts, t, id, 1);
  }

  // ---- The deletion that stops half-way --------------------------------------------------------------------------

  /** The recipient is fenced, nothing is in flight, and the clean-up has begun. */
  ghost predicate BeingDeleted(w: World, w': World) {
    && w'.r == w.r.(deleted := {7}, generations := map[7 := 1]) && w'.deletions == map[7 := Cleaning(1)]
    && w'.h == w.h.(used := w'.h.used)
  }

  lemma BeginDeletion(run: seq<World>, acts: seq<Act>) returns (run': seq<World>, acts': seq<Act>)
    requires IsRun(run, acts) && Untouched(run[|acts|])
    ensures IsRun(run', acts') && Extends(run, acts, run', acts') && BeingDeleted(run[|acts|], run'[|acts'|])
  {
    FencedWorld(run[|acts|]);
    hide BeingDeleted;
    run', acts' := Extend(run, acts, FenceUser(7, 1));
    run', acts' := Extend(run', acts', SeeZero(7));
  }

  lemma FencedWorld(w: World)
    requires Untouched(w)
    ensures var w1 := Fenced(w, 7, 1);
      1 !in Used(w, 7) && 7 in w1.deletions && Inflight(w1.r, 7) == 0 && BeingDeleted(w, ZeroSeen(w1, 7))
  {
  }

  /** The enqueue marker goes and, if `first`, the mark of stage 1; then the deletion stops, and the recipient registers. */
  lemma StopHalfWay(run: seq<World>, acts: seq<Act>, w: World, first: bool) returns (run': seq<World>, acts': seq<Act>)
    requires IsRun(run, acts) && BeingDeleted(w, run[|acts|]) && w.h.overlapped == {}
    ensures IsRun(run', acts') && Extends(run, acts, run', acts')
    ensures run'[|acts'|].r == w.r.(generations := map[7 := 1], deleted := {}, enqueued := w.r.enqueued - {POST},
                                    marks := if first then w.r.marks - {Stage(POST, 1)} else w.r.marks)
    ensures run'[|acts'|].h.accepted == w.h.accepted
  {
    run', acts' := Extend(run, acts, DropMarker(POST));
    if first {
      run', acts' := Extend(run', acts', DropMark(Stage(POST, 1)));
    }
    var w1 := run'[|acts'|];
    assert w1.r == w.r.(deleted := {7}, generations := map[7 := 1], enqueued := w.r.enqueued - {POST},
                        marks := if first then w.r.marks - {Stage(POST, 1)} else w.r.marks);
    run', acts' := EndAndRegister(run', acts');
  }

  lemma EndAndRegister(run: seq<World>, acts: seq<Act>) returns (run': seq<World>, acts': seq<Act>)
    requires IsRun(run, acts) && run[|acts|].deletions == map[7 := Cleaning(1)] && run[|acts|].r.deleted == {7}
    ensures IsRun(run', acts') && Extends(run, acts, run', acts') && run'[|acts'|].h == run[|acts|].h
    ensures run'[|acts'|].r == run[|acts|].r.(deleted := {})
  {
    run', acts' := Extend(run, acts, EndDeletion(7));
    run', acts' := Extend(run', acts', RegisterUser(7));
  }

  lemma NotAccepted(w: World)
    requires Inv(w) && Untouched(w)
    ensures (POST, 1) !in w.h.accepted
  {
    forall k | k in w.h.accepted ensures k.1 in Used(w, k.0.recipient) {
      assert AcceptedOk(w, k);
    }
  }

  /** After `n` stages were sent: partial deletion, registration, and the source post accepted again. */
  lemma AcceptedAgain(run: seq<World>, acts: seq<Act>, n: nat, first: bool) returns (run': seq<World>, acts': seq<Act>, a: nat)
    requires IsRun(run, acts) && Untouched(run[|acts|]) && SentUpTo(run[|acts|], n)
    ensures IsRun(run', acts') && |acts'| == a + 1 && AcceptsFresh(run'[a], acts'[a], POST, 1)
    ensures forall s :: 1 <= s <= 3 ==> (HasMark(run'[a].r, Stage(POST, s), Sent) <==> s <= n && !(first && s == 1))
    ensures run'[a].r.now == run[|acts|].r.now
  {
    hide Inv, AdvanceOp, RenewOp, PopJobs, SettleEntry;
    var w := run[|acts|];
    Reachable(run, acts, |acts|);
    NotAccepted(w);
    run', acts' := BeginDeletion(run, acts);
    run', acts' := StopHalfWay(run', acts', w, first);
    a := |acts'|;
    var w1 := run'[a];
    run', acts' := Extend(run', acts', EnqueueAlert(POST, 1, false, w1.r.now));
  }

  /** Only the mark of stage 1 is left over: stage 2 of the new generation begins although its stage 1 was never sent. */
  lemma FirstMarkLeft() returns (run: seq<World>, acts: seq<Act>, a: nat, k: nat)
    ensures IsRun(run, acts) && a < k < |acts| && FirstAccepts(run[a], acts[a], POST, 1)
    ensures HasMark(run[a].r, Stage(POST, 1), Sent) && !HasMark(run[a].r, Stage(POST, 2), Sent)
    ensures BeginsSend(run[k], acts[k], Job(POST, 2, 1)) && Job(POST, 1, 1) !in run[k].h.marked
  {
    run, acts := SendFirst();
    run, acts, a := AcceptedAgain(run, acts, 1, false);
    var run', acts' := GapBreaksChain(run, acts, a, POST, 1, 1);
    assert run'[a] == run[a] && acts'[a] == acts[a];
    run, acts, k := run', acts', |acts'| - 1;
  }

  /** Only the mark of stage 2 is left over: stage 3 of the new generation begins although neither of its
      earlier stages was ever sent. */
  lemma SecondMarkLeft() returns (run: seq<World>, acts: seq<Act>, a: nat, k: nat)
    ensures IsRun(run, acts) && a < k < |acts| && FirstAccepts(run[a], acts[a], POST, 1)
    ensures HasMark(run[a].r, Stage(POST, 2), Sent) && !HasMark(run[a].r, Stage(POST, 1), Sent)
    ensures BeginsSend(run[k], acts[k], Job(POST, 3, 1))
    ensures Job(POST, 1, 1) !in run[k].h.marked && Job(POST, 2, 1) !in run[k].h.marked
  {
    run, acts := SendSecond();
    run, acts, a := AcceptedAgain(run, acts, 2, true);
    var run', acts' := GapBreaksChain(run, acts, a, POST, 1, 2);
    assert run'[a] == run[a] && acts'[a] == acts[a];
    run, acts, k := run', acts', |acts'| - 1;
  }
}
