/** The in-flight counter never tells of more sends than there are reservations still to be given back. Only two steps
    move it: a reservation let through, and one given back; every other step is shown to leave counter and reservations
    alone. */
module DeliveryCounter {
  import opened DeliveryState
  import opened DeliveryRun
  import opened DeliveryInvariant
  import opened DeliveryCarry
  import opened DeliverySteps
  import opened DeliveryTheorems
  import opened DeliveryChain

  /** The reservations of a user that no operation has given back. */
  function Unreturned(w: World, user: int): set<nat> {
    set t | t in w.h.reservations && w.h.reservations[t].user == user
  }

  predicate SameSlots(w: World, w': World) {
    w'.r.inflight == w.r.inflight && w'.h.reservations == w.h.reservations && w.r.now <= w'.r.now
  }

  lemma {:induction false} PopSameSlots(w: World, due: seq<Job>)
    ensures SameSlots(w, PopJobs(w, due))
    decreases |due|
  {
    if due != [] {
      PopSameSlots(PopOneJob(w, due[0]), due[1..]);
    }
  }

  lemma RenewSameSlots(w: World, t: nat, next: Point)
    requires t in w.ops
    ensures SameSlots(w, RenewOp(w, t, next))
  {
  }

  lemma LookSameSlots(w: World, t: nat, x: Answers)
    requires t in w.ops && (Looks(w.ops[t].point) || w.ops[t].point.CountFailure?)
    ensures SameSlots(w, AdvanceOp(w, t, x))
  {
    hide Look, SettleEntry, RenewOp;
  }

  lemma SettleSameSlots(w: World, t: nat, x: Answers)
    requires t in w.ops && w.ops[t].point.Settle?
    ensures SameSlots(w, AdvanceOp(w, t, x))
  {
    var op := w.ops[t];
    EntrySameSlots(Leave(w, t), op.id, op.job, op.point.how);
    assert AdvanceOp(w, t, x) == SettleEntry(Leave(w, t), op.id, op.job, op.point.how);
    hide AdvanceOp, SettleEntry;
  }

  lemma EntrySameSlots(w: World, id: nat, j: Job, how: Settlement)
    ensures SameSlots(w, SettleEntry(w, id, j, how))
  {
    if how.DeadLetter? {
      var w1 := w.(r := StoreDeadLetter(w.r, id, j));
      assert NoteMark(w1, j, Failed).r == w1.r && Close(w1, j, Privacy).r == w1.r;
    }
  }

  lemma RefusedSameSlots(w: World, t: nat, x: Answers)
    requires t in w.ops && w.ops[t].point.BeginSend? && !Allowed(w.r, w.ops[t].job)
    ensures SameSlots(w, AdvanceOp(w, t, x))
  {
    hide Look, SettleEntry, RenewOp;
  }

  lemma UserSameSlots(w: World, a: Act)
    requires Enabled(w, a) && UserStep(a)
    ensures SameSlots(w, After(w, a))
  {
    hide AdvanceOp, RenewOp, PopJobs, SettleEntry;
  }

  lemma ClaimSameSlots(r: Redis, id: nat, c: nat)
    ensures Claim(r, id, c).inflight == r.inflight && Claim(r, id, c).now == r.now
  {
    if id in r.entries {
      assert Claim(r, id, c) == r.(pending := r.pending[id := c]);
    } else {
      assert Claim(r, id, c) == r.(pending := r.pending - {id});
    }
    hide Claim;
  }

  lemma AcceptSameSlots(w: World, e: Event, g: nat, stale: bool, clock: int)
    ensures SameSlots(w, Accept(w, e, g, stale, clock))
  {
  }

  lemma StreamSameSlots(w: World, a: Act)
    requires Enabled(w, a) && (a.Tick? || a.ReadNew? || a.ClaimIdle? || a.TrimStream? || a.ForgetRetry? || a.EnqueueAlert?)
    ensures SameSlots(w, After(w, a))
  {
    hide AdvanceOp, RenewOp, PopJobs, SettleEntry, Claim, Accept, Enqueues, IsFloor, NextUnread;
    match a
    case ClaimIdle(id, c) => ClaimSameSlots(w.r, id, c);
    case EnqueueAlert(e, g, stale, clock) => AcceptSameSlots(w, e, g, stale, clock);
    case _ =>
  }

  lemma OwnSameSlots(w: World, a: Act)
    requires Enabled(w, a) && (a.StartOp? || a.Cancel? || a.Crash?)
    ensures SameSlots(w, After(w, a))
  {
    hide AdvanceOp, RenewOp, PopJobs, SettleEntry;
  }

  lemma PlainSameSlots(w: World, a: Act)
    requires Enabled(w, a) && !a.Advance? && !UserStep(a) && !a.PopMature? && !a.Heartbeat?
    ensures SameSlots(w, After(w, a))
  {
    hide After, Enabled;
    if a.StartOp? || a.Cancel? || a.Crash? {
      OwnSameSlots(w, a);
    } else {
      StreamSameSlots(w, a);
    }
  }

  /** The step makes a reservation, or gives one back. */
  predicate MovesSlot(w: World, a: Act) {
    a.Advance? && a.token in w.ops &&
    (w.ops[a.token].point.EndSend? || (w.ops[a.token].point.BeginSend? && Allowed(w.r, w.ops[a.token].job)))
  }

  lemma StepSameSlots(w: World, a: Act)
    requires Enabled(w, a) && !MovesSlot(w, a)
    ensures SameSlots(w, After(w, a))
  {
    hide AdvanceOp, RenewOp, PopJobs;
    if a.PopMature? {
      PopSameSlots(w, a.due);
    } else if a.Heartbeat? {
      RenewSameSlots(w, a.token, w.ops[a.token].point);
    } else if a.Advance? {
      var p := w.ops[a.token].point;
      if p.Settle? {
        SettleSameSlots(w, a.token, a.answers);
      } else if p.Reguard? {
        RenewSameSlots(w, a.token, RecheckContent);
        GuardRenews(w, a.token, a.answers);
      } else if p.BeginSend? {
        RefusedSameSlots(w, a.token, a.answers);
      } else {
        LookSameSlots(w, a.token, a.answers);
      }
    } else {
      hide After, Enabled;
      if UserStep(a) {
        UserSameSlots(w, a);
      } else {
        PlainSameSlots(w, a);
      }
    }
  }

  lemma GuardRenews(w: World, t: nat, x: Answers)
    requires t in w.ops && w.ops[t].point.Reguard?
    ensures AdvanceOp(w, t, x) == RenewOp(w, t, RecheckContent)
  {
  }

  lemma BegunCount(w: World, t: nat, u: int)
    requires Inv(w) && t in w.ops && w.ops[t].point.BeginSend? && Inflight(w.r, u) <= |Unreturned(w, u)|
    ensures Inflight(Begun(w, t).r, u) <= |Unreturned(Begun(w, t), u)|
  {
    assert OpOk(w, t) && t !in w.h.reservations;
    if u == w.ops[t].job.event.recipient {
      assert Unreturned(Begun(w, t), u) == Unreturned(w, u) + {t};
    } else {
      assert Unreturned(Begun(w, t), u) == Unreturned(w, u);
    }
  }

  lemma EndedCount(w: World, t: nat, u: int)
    requires Inv(w) && t in w.ops && w.ops[t].point.EndSend? && Inflight(w.r, u) <= |Unreturned(w, u)|
    ensures Inflight(Ended(w, t).r, u) <= |Unreturned(Ended(w, t), u)|
  {
    assert OpOk(w, t);
    if u == w.ops[t].job.event.recipient {
      assert Unreturned(Ended(w, t), u) == Unreturned(w, u) - {t} && t in Unreturned(w, u);
      if Inflight(w.r, u) <= 1 { EndClears(w.r, u); } else { EndLowers(w.r, u); }
    } else {
      assert Unreturned(Ended(w, t), u) == Unreturned(w, u);
      EndElsewhere(w.r, w.ops[t].job.event.recipient, u);
    }
  }

  lemma StepCount(w: World, a: Act, u: int)
    requires Inv(w) && Enabled(w, a) && Inflight(w.r, u) <= |Unreturned(w, u)|
    ensures Inflight(After(w, a).r, u) <= |Unreturned(After(w, a), u)|
  {
    if MovesSlot(w, a) {
      hide Look, RenewOp, SettleEntry, Inv, Inflight, Unreturned, Begun, Ended;
      if w.ops[a.token].point.EndSend? {
        assert After(w, a) == Ended(w, a.token);
        EndedCount(w, a.token, u);
      } else {
        BeginAdvances(w, a.token, a.answers);
        BegunCount(w, a.token, u);
      }
    } else {
      StepSameSlots(w, a);
      hide After, Enabled, Inv;
      assert Unreturned(After(w, a), u) == Unreturned(w, u);
    }
  }

  lemma BeginAdvances(w: World, t: nat, x: Answers)
    requires t in w.ops && w.ops[t].point.BeginSend? && Allowed(w.r, w.ops[t].job)
    ensures AdvanceOp(w, t, x) == Begun(w, t)
  {
  }

  /** The counter is at most the number of the user's reservations still to be given back. So once they all have been, the
      wait loop of a deletion finds zero. */
  lemma {:induction false} CounterBound(run: seq<World>, acts: seq<Act>, i: nat, u: int)
    requires IsRun(run, acts) && i < |run|
    ensures Inflight(run[i].r, u) <= |Unreturned(run[i], u)|
    ensures Unreturned(run[i], u) == {} ==> Inflight(run[i].r, u) == 0
  {
    if i > 0 {
      hide After, Enabled, Inv, Inflight, Unreturned;
      CounterBound(run, acts, i - 1, u);
      Reachable(run, acts, i - 1);
      StepCount(run[i - 1], acts[i - 1], u);
    }
  }
}
