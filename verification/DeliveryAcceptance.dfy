/** When the stages wait for one another. */
module DeliveryAcceptance {
  // What has to hold when an event is accepted so that, under that generation, every stage waits for the one before.

  import opened DeliveryState
  import opened DeliveryRun
  import opened DeliveryInvariant
  import opened DeliveryProofs
  import opened DeliveryTheorems
  import opened DeliveryOnce
  import opened DeliveryChain

  // ---- How an operation moves -------------------------------------------------------------------------------

  /** A send is under way, or succeeded and its mark is about to be written. */
  predicate Sends(p: Point) {
    p.Sending? || p == Settle(MarkSent)
  }

  /** `o'` is where a step can leave operation `o`. */
  predicate Moves(w: World, o: Op, o': Op) {
    && o'.job == o.job && o'.started == o.started
    && (Sends(o'.point) ==> Sends(o.point) || (o.point.BeginSend? && Allowed(w.r, o.job) && InBudget(w, o)))
    && (PastPrior(o'.point) ==>
          PastPrior(o.point) || o.job.step <= 1 ||
          (o.point.ReadPrior? && HasMark(w.r, Stage(o.job.event, o.job.step - 1), Sent)))
  }

  lemma LookMoves(w: World, t: nat, x: Answers)
    requires t in w.ops && Looks(w.ops[t].point) && InBudget(w, w.ops[t])
    ensures t in AdvanceOp(w, t, x).ops && Moves(w, w.ops[t], AdvanceOp(w, t, x).ops[t])
  {
  }

  lemma RenewMoves(w: World, t: nat, next: Point)
    requires t in w.ops && (next == w.ops[t].point || (next == RecheckContent && w.ops[t].point.Reguard?))
    ensures t in RenewOp(w, t, next).ops ==> Moves(w, w.ops[t], RenewOp(w, t, next).ops[t])
  {
  }

  lemma CallMoves(w: World, t: nat, x: Answers)
    requires t in w.ops && InBudget(w, w.ops[t]) && (w.ops[t].point.BeginSend? || w.ops[t].point.CountFailure?)
    ensures t in AdvanceOp(w, t, x).ops ==> Moves(w, w.ops[t], AdvanceOp(w, t, x).ops[t])
  {
    hide Look;
  }

  lemma SettleMoves(w: World, t: nat, x: Answers)
    requires t in w.ops && (w.ops[t].point.Settle? || w.ops[t].point.EndSend?)
    ensures t in AdvanceOp(w, t, x).ops ==> Moves(w, w.ops[t], AdvanceOp(w, t, x).ops[t])
  {
    hide Look, RenewOp;
  }

  lemma AdvanceMoves(w: World, t: nat, x: Answers)
    requires CanAdvance(w, t)
    ensures t in AdvanceOp(w, t, x).ops ==> Moves(w, w.ops[t], AdvanceOp(w, t, x).ops[t])
  {
    if w.ops[t].point.Reguard? {
      RenewMoves(w, t, RecheckContent);
      assert AdvanceOp(w, t, x) == RenewOp(w, t, RecheckContent);
    } else {
      hide AdvanceOp, Moves;
      if w.ops[t].point.Settle? || w.ops[t].point.EndSend? {
        SettleMoves(w, t, x);
      } else if w.ops[t].point.BeginSend? || w.ops[t].point.CountFailure? {
        CallMoves(w, t, x);
      } else {
        LookMoves(w, t, x);
      }
    }
  }

  /** After a step an operation is new and has only begun, or is where the step could leave it. */
  lemma StepMoves(w: World, a: Act, t: nat)
    requires Enabled(w, a) && t in After(w, a).ops
    ensures if t in w.ops then Moves(w, w.ops[t], After(w, a).ops[t])
            else After(w, a).ops[t].point.ReadGeneration?
  {
    if t in w.ops && !ActsFor(a, t) {
      OpStays(w, a, t);
      hide After, Enabled;
    } else if a.Advance? {
      AdvanceKeepsOthers(w, a.token, a.answers, t);
      AdvanceMoves(w, a.token, a.answers);
      assert After(w, a) == AdvanceOp(w, a.token, a.answers);
      hide After, AdvanceOp;
    } else if a.Heartbeat? {
      RenewMoves(w, a.token, w.ops[a.token].point);
      assert After(w, a) == RenewOp(w, a.token, w.ops[a.token].point);
      hide After;
    } else {
      OtherMoves(w, a, t);
    }
  }

  lemma AdvanceKeepsOthers(w: World, t: nat, x: Answers, other: nat)
    requires t in w.ops && other in AdvanceOp(w, t, x).ops
    ensures other in w.ops
  {
    hide Look;
  }

  lemma OtherMoves(w: World, a: Act, t: nat)
    requires Enabled(w, a) && t in After(w, a).ops && !a.Advance? && !a.Heartbeat? && (t !in w.ops || ActsFor(a, t))
    ensures if t in w.ops then Moves(w, w.ops[t], After(w, a).ops[t])
            else After(w, a).ops[t].point.ReadGeneration?
  {
    hide AdvanceOp, RenewOp;
    if a.PopMature? {
      PopKeepsOps(w, a.due);
    }
  }

  // ---- A send that may still complete keeps its event marked ----------------------------------------------------

  /** The operation may still mark its stage sent. */
  predicate MaySend(w: World, t: nat)
    requires t in w.ops
  {
    Sends(w.ops[t].point) && InBudget(w, w.ops[t])
  }

  /** The event's enqueue marker outlives the horizon of the acceptance that the operation works on. */
  ghost predicate EventMarked(w: World, t: nat)
    requires t in w.ops
  {
    var e, k := w.ops[t].job.event, (w.ops[t].job.event, w.ops[t].job.generation);
    MaySend(w, t) && Orderly(w, e.recipient) ==>
      k in w.h.accepted && e in w.r.enqueued && w.h.accepted[k] + REPLAY_HORIZON <= w.r.enqueued[e]
  }

  ghost predicate SendsMarked(w: World) {
    forall t {:trigger EventMarked(w, t)} :: t in w.ops ==> EventMarked(w, t)
  }

  lemma SenderYoung(w: World, t: nat)
    requires Inv(w) && t in w.ops && MaySend(w, t)
    ensures Young(w, w.ops[t].job) && t in Outstanding(w, w.ops[t].job.event.recipient)
  {
    assert OpOk(w, t);
    OpYoung(w, t);
  }

  /** While an operation may still mark an event's stage sent, the event is marked enqueued. */
  lemma SenderEnqueued(w: World, t: nat)
    requires Inv(w) && SendsMarked(w) && t in w.ops && MaySend(w, t) && Orderly(w, w.ops[t].job.event.recipient)
    ensures IsEnqueued(w.r, w.ops[t].job.event) && !CleaningUser(w, w.ops[t].job.event.recipient)
  {
    assert EventMarked(w, t);
    SenderYoung(w, t);
    assert UserOk(w, w.ops[t].job.event.recipient);
  }

  /** The marker of an event that an operation may still send, and the time of its acceptance, stay. */
  lemma MarkerKept(w: World, a: Act, t: nat)
    requires Inv(w) && SendsMarked(w) && Enabled(w, a) && t in w.ops && MaySend(w, t)
    requires Orderly(w, w.ops[t].job.event.recipient)
    ensures var e, k := w.ops[t].job.event, (w.ops[t].job.event, w.ops[t].job.generation);
      && k in w.h.accepted && k in After(w, a).h.accepted && After(w, a).h.accepted[k] == w.h.accepted[k]
      && e in w.r.enqueued && e in After(w, a).r.enqueued && After(w, a).r.enqueued[e] == w.r.enqueued[e]
  {
    assert EventMarked(w, t);
    SenderEnqueued(w, t);
    hide AdvanceOp, RenewOp, PopJobs, Inv;
    if !Touches(a) {
      StepSameMarkers(w, a);
      hide After;
    }
  }

  lemma BeginnerMarked(w: World, t: nat)
    requires Inv(w) && t in w.ops && w.ops[t].point.BeginSend? && InBudget(w, w.ops[t]) && Allowed(w.r, w.ops[t].job)
    requires Orderly(w, w.ops[t].job.event.recipient)
    ensures var e, k := w.ops[t].job.event, (w.ops[t].job.event, w.ops[t].job.generation);
      k in w.h.accepted && e in w.r.enqueued && w.h.accepted[k] + REPLAY_HORIZON <= w.r.enqueued[e]
  {
    OpYoung(w, t);
    assert AcceptedOk(w, (w.ops[t].job.event, w.ops[t].job.generation));
  }

  lemma BeginSameMarkers(w: World, a: Act, t: nat)
    requires Enabled(w, a) && t in w.ops && w.ops[t].point.BeginSend? && t in After(w, a).ops && Sends(After(w, a).ops[t].point)
    ensures !Touches(a)
  {
    if !ActsFor(a, t) {
      OpStays(w, a, t);
    }
  }

  lemma MarkedBefore(w: World, t: nat)
    requires SendsMarked(w) && t in w.ops
    ensures EventMarked(w, t)
  {
  }

  lemma StepEventMarked(w: World, a: Act, t: nat)
    requires Inv(w) && SendsMarked(w) && Enabled(w, a) && t in After(w, a).ops && Remembers(w, After(w, a))
    ensures EventMarked(After(w, a), t)
  {
    hide After, Enabled, Inv, SendsMarked;
    StepMoves(w, a, t);
    var w' := After(w, a);
    if t in w.ops && MaySend(w', t) && Orderly(w', w'.ops[t].job.event.recipient) {
      if Sends(w.ops[t].point) {
        MarkerKept(w, a, t);
        MarkedBefore(w, t);
      } else {
        BeginnerMarked(w, t);
        BeginSameMarkers(w, a, t);
        StepSameMarkers(w, a);
      }
    }
  }

  lemma {:induction false} AllSendsMarked(run: seq<World>, acts: seq<Act>, i: nat)
    requires IsRun(run, acts) && i < |run|
    ensures SendsMarked(run[i])
  {
    hide After, Enabled, Inv;
    if i > 0 {
      AllSendsMarked(run, acts, i - 1);
      Reachable(run, acts, i - 1);
      RunRemembers(run, acts, i - 1, i);
      forall t {:trigger EventMarked(run[i], t)} | t in run[i].ops ensures EventMarked(run[i], t) {
        StepEventMarked(run[i - 1], acts[i - 1], t);
      }
    }
  }

  // ---- The chain belongs to one generation ---------------------------------------------------------------------

  ghost predicate SendOwn(w: World, t: nat, e: Event, g: nat)
    requires t in w.ops
  {
    w.ops[t].job.event == e && MaySend(w, t) ==> w.ops[t].job.generation == g
  }

  ghost predicate MarkOwn(w: World, s: nat, e: Event, g: nat) {
    1 <= s <= 2 && HasMark(w.r, Stage(e, s), Sent) ==> Job(e, s, g) in w.h.sentBy
  }

  ghost predicate OpOwn(w: World, t: nat, e: Event, g: nat)
    requires t in w.ops
  {
    var j := w.ops[t].job;
    j.event == e && j.generation == g && j.step > 1 && PastPrior(w.ops[t].point) ==> Job(e, j.step - 1, g) in w.h.sentBy
  }

  ghost predicate SentOwn(w: World, s: nat, e: Event, g: nat) {
    s > 1 && Job(e, s, g) in w.h.sentBy ==> Job(e, s - 1, g) in w.h.sentBy
  }

  /** The sends that may complete, the marks of the first two stages, the operations past their look at the previous
      stage, and the stages sent so far are all those of generation `g`. */
  ghost predicate Chained(w: World, e: Event, g: nat) {
    && (forall t {:trigger SendOwn(w, t, e, g)} :: t in w.ops ==> SendOwn(w, t, e, g))
    && (forall s: nat {:trigger MarkOwn(w, s, e, g)} :: MarkOwn(w, s, e, g))
    && (forall t {:trigger OpOwn(w, t, e, g)} :: t in w.ops ==> OpOwn(w, t, e, g))
    && (forall s: nat {:trigger SentOwn(w, s, e, g)} :: SentOwn(w, s, e, g))
  }

  lemma StepSendOwn(w: World, a: Act, t: nat, e: Event, g: nat)
    requires Enabled(w, a) && t in After(w, a).ops && w.r.now <= After(w, a).r.now
    requires Generation(w.r, e.recipient) == g && (t in w.ops ==> SendOwn(w, t, e, g))
    ensures SendOwn(After(w, a), t, e, g)
  {
    hide After, Enabled;
    StepMoves(w, a, t);
  }

  lemma StepMarkOwn(w: World, a: Act, s: nat, e: Event, g: nat)
    requires Enabled(w, a) && Remembers(w, After(w, a)) && MarkOwn(w, s, e, g)
    requires forall t {:trigger SendOwn(w, t, e, g)} :: t in w.ops ==> SendOwn(w, t, e, g)
    ensures MarkOwn(After(w, a), s, e, g)
  {
    if Settling(w, a) {
      var op := w.ops[a.token];
      assert Active(w, op);
      StepMarks(w, a);
      assert SendOwn(w, a.token, e, g);
    } else if a.DropMark? {
      DropMarkEffect(w, a.stage);
    } else {
      StepSameMarks(w, a);
    }
    hide After, Enabled;
  }

  lemma StepOpOwn(w: World, a: Act, t: nat, e: Event, g: nat)
    requires Inv(w) && Enabled(w, a) && Remembers(w, After(w, a)) && t in After(w, a).ops
    requires (t in w.ops ==> OpOwn(w, t, e, g)) && forall s: nat {:trigger MarkOwn(w, s, e, g)} :: MarkOwn(w, s, e, g)
    ensures OpOwn(After(w, a), t, e, g)
  {
    hide After, Enabled, Inv;
    StepMoves(w, a, t);
    if t in w.ops {
      JobAccepted(w, t);
      assert MarkOwn(w, w.ops[t].job.step - 1, e, g);
    }
  }

  lemma StepSentOwn(w: World, a: Act, s: nat, e: Event, g: nat)
    requires Enabled(w, a) && Remembers(w, After(w, a)) && SentOwn(w, s, e, g)
    requires forall t {:trigger OpOwn(w, t, e, g)} :: t in w.ops ==> OpOwn(w, t, e, g)
    ensures SentOwn(After(w, a), s, e, g)
  {
    if Settling(w, a) {
      StepMarks(w, a);
      assert OpOwn(w, a.token, e, g);
    } else if a.DropMark? {
      DropMarkEffect(w, a.stage);
    } else {
      StepSameMarks(w, a);
    }
    hide After, Enabled;
  }

  lemma StepChained(w: World, a: Act, e: Event, g: nat)
    requires Inv(w) && Enabled(w, a) && Remembers(w, After(w, a)) && Chained(w, e, g) && Generation(w.r, e.recipient) == g
    ensures Chained(After(w, a), e, g)
  {
    hide After, Enabled, Inv, SendOwn, MarkOwn, OpOwn, SentOwn;
    var w' := After(w, a);
    forall t {:trigger SendOwn(w', t, e, g)} | t in w'.ops ensures SendOwn(w', t, e, g) {
      StepSendOwn(w, a, t, e, g);
    }
    forall s: nat {:trigger MarkOwn(w', s, e, g)} ensures MarkOwn(w', s, e, g) {
      StepMarkOwn(w, a, s, e, g);
    }
    forall t {:trigger OpOwn(w', t, e, g)} | t in w'.ops ensures OpOwn(w', t, e, g) {
      StepOpOwn(w, a, t, e, g);
    }
    forall s: nat {:trigger SentOwn(w', s, e, g)} ensures SentOwn(w', s, e, g) {
      StepSentOwn(w, a, s, e, g);
    }
  }

  // ---- The condition at the acceptance ----------------------------------------------------------------------------

  /** No mark of an earlier generation tells that one of the first two stages of the event was sent. */
  predicate CleanMarks(w: World, e: Event) {
    !HasMark(w.r, Stage(e, 1), Sent) && !HasMark(w.r, Stage(e, 2), Sent)
  }

  /** The generation accepts the event for the first time. */
  predicate FirstAccepts(w: World, a: Act, e: Event, g: nat) {
    Accepts(w, a, e, g) && (e, g) !in w.h.accepted
  }

  lemma SentWasAccepted(w: World, j: Job)
    requires Inv(w)
    ensures j in w.h.sentBy ==> (j.event, j.generation) in w.h.accepted
  {
    if j in w.h.sentBy {
      assert SentByOk(w, j);
      assert JobOk(w, j);
    }
  }

  lemma MarkWasAccepted(w: World, s: Stage)
    requires Inv(w)
    ensures HasMark(w.r, s, Sent) ==> exists h :: (s.event, h) in w.h.accepted
  {
    if HasMark(w.r, s, Sent) {
      assert RedisMarkOk(w, s);
      var h :| Job(s.event, s.step, h) in w.h.sentBy;
      SentWasAccepted(w, Job(s.event, s.step, h));
    }
  }

  lemma NewInGeneration(w: World, e: Event, g: nat)
    requires Inv(w) && (e, g) !in w.h.accepted
    ensures forall s :: Job(e, s, g) !in w.h.sentBy
    ensures forall t :: t in w.ops && w.ops[t].job.event == e ==> w.ops[t].job.generation != g
  {
    forall s ensures Job(e, s, g) !in w.h.sentBy {
      SentWasAccepted(w, Job(e, s, g));
    }
    forall t | t in w.ops && w.ops[t].job.event == e ensures w.ops[t].job.generation != g {
      JobAccepted(w, t);
    }
  }

  /** At an acceptance no earlier send of the event can complete any more. */
  lemma NoSenderLeft(w: World, e: Event, t: nat)
    requires Inv(w) && SendsMarked(w) && !IsEnqueued(w.r, e) && t in w.ops && w.ops[t].job.event == e
    requires Orderly(w, e.recipient)
    ensures !MaySend(w, t)
  {
    if MaySend(w, t) {
      SenderEnqueued(w, t);
    }
  }

  lemma AcceptChains(w: World, a: Act, e: Event, g: nat)
    requires Inv(w) && SendsMarked(w) && Enabled(w, a) && FirstAccepts(w, a, e, g) && CleanMarks(w, e)
    requires Orderly(w, e.recipient)
    ensures Chained(After(w, a), e, g)
  {
    hide Inv, SendsMarked, AdvanceOp, RenewOp, PopJobs, SettleEntry;
    var w' := After(w, a);
    assert w' == Accept(w, e, g, a.stale, a.clock);
    NewInGeneration(w, e, g);
    forall t {:trigger SendOwn(w', t, e, g)} | t in w'.ops ensures SendOwn(w', t, e, g) {
      if w.ops[t].job.event == e {
        NoSenderLeft(w, e, t);
      }
    }
  }

  lemma {:induction false} ChainedSince(run: seq<World>, acts: seq<Act>, a: nat, k: nat, e: Event, g: nat)
    requires IsRun(run, acts) && a < k < |run| && FirstAccepts(run[a], acts[a], e, g) && CleanMarks(run[a], e)
    requires Generation(run[k].r, e.recipient) == g && Orderly(run[k], e.recipient)
    ensures Chained(run[k], e, g)
    decreases k - a
  {
    hide After, Enabled, Inv, Chained, SendsMarked;
    if k == a + 1 {
      Reachable(run, acts, a);
      AllSendsMarked(run, acts, a);
      RunRemembers(run, acts, a, k);
      AcceptChains(run[a], acts[a], e, g);
    } else {
      Reachable(run, acts, k - 1);
      RunRemembers(run, acts, a + 1, k - 1);
      RunRemembers(run, acts, k - 1, k);
      AcceptedGeneration(run, acts, a, e, g);
      CurrentBefore(run, acts, k - 1, Job(e, 1, g));
      ChainedSince(run, acts, a, k - 1, e, g);
      StepChained(run[k - 1], acts[k - 1], e, g);
    }
  }

  lemma AcceptedGeneration(run: seq<World>, acts: seq<Act>, a: nat, e: Event, g: nat)
    requires IsRun(run, acts) && a < |acts| && FirstAccepts(run[a], acts[a], e, g)
    ensures g in Used(run[a + 1], e.recipient)
  {
    Reachable(run, acts, a + 1);
    assert run[a + 1] == Accept(run[a], e, g, acts[a].stale, acts[a].clock);
    assert AcceptedOk(run[a + 1], (e, g));
  }

  lemma {:induction false} SentBelow(w: World, e: Event, g: nat, top: nat, step: nat)
    requires Chained(w, e, g) && 1 <= step <= top && Job(e, top, g) in w.h.sentBy
    ensures Job(e, step, g) in w.h.sentBy
    decreases top
  {
    if step < top {
      assert SentOwn(w, top, e, g);
      SentBelow(w, e, g, top - 1, step);
    }
  }

  /** If no mark is left that one of the first two stages was sent when a generation first accepts an event, then a
      stage of that generation starts only after each earlier one was marked sent under it. */
  lemma StageChain(run: seq<World>, acts: seq<Act>, a: nat, k: nat, j: Job, step: nat)
    requires IsRun(run, acts) && a < k < |acts|
    requires FirstAccepts(run[a], acts[a], j.event, j.generation) && CleanMarks(run[a], j.event)
    requires BeginsSend(run[k], acts[k], j) && 1 <= step < j.step && Orderly(run[k], j.event.recipient)
    ensures Job(j.event, step, j.generation) in run[k].h.marked
    ensures run[k].h.marked[Job(j.event, step, j.generation)] == Sent
  {
    Reachable(run, acts, k);
    var w := run[k];
    ChainedSince(run, acts, a, k, j.event, j.generation);
    assert OpOwn(w, acts[k].token, j.event, j.generation);
    SentBelow(w, j.event, j.generation, j.step - 1, step);
    assert SentByOk(w, Job(j.event, step, j.generation)) && MarkedOk(w, Job(j.event, step, j.generation));
  }

  /** A skipped or failed stage is the last: no later stage of that event and generation ever begins. */
  lemma SkippedOrFailedIsLast(run: seq<World>, acts: seq<Act>, a: nat, i: nat, k: nat, j: Job, later: Job)
    requires IsRun(run, acts) && a < k < |acts| && i <= k
    requires FirstAccepts(run[a], acts[a], j.event, j.generation) && CleanMarks(run[a], j.event)
    requires j in run[i].h.marked && run[i].h.marked[j] != Sent
    requires later.event == j.event && later.generation == j.generation && later.step > j.step
    requires Orderly(run[k], j.event.recipient)
    ensures !BeginsSend(run[k], acts[k], later)
  {
    if BeginsSend(run[k], acts[k], later) {
      Reachable(run, acts, i);
      MarkedAccepted(run[i], j);
      StageChain(run, acts, a, k, later, j.step);
      MarkStays(run, acts, i, k, j);
    }
  }

  /** Every accepted event was first accepted at some step. */
  lemma {:induction false} FirstAcceptance(run: seq<World>, acts: seq<Act>, k: nat, e: Event, g: nat) returns (a: nat)
    requires IsRun(run, acts) && k < |run| && (e, g) in run[k].h.accepted
    ensures a < k && FirstAccepts(run[a], acts[a], e, g)
    decreases k
  {
    assert k > 0;
    if (e, g) in run[k - 1].h.accepted {
      a := FirstAcceptance(run, acts, k - 1, e, g);
    } else {
      a := k - 1;
      StepAccepts(run[k - 1], acts[k - 1], e, g);
    }
  }

  lemma StepAccepts(w: World, a: Act, e: Event, g: nat)
    requires Enabled(w, a) && (e, g) in After(w, a).h.accepted && (e, g) !in w.h.accepted
    ensures FirstAccepts(w, a, e, g)
  {
    hide AdvanceOp, RenewOp, PopJobs, SettleEntry;
    if !Touches(a) {
      StepSameMarkers(w, a);
      hide After;
    }
  }

  /** An event accepted under one generation only finds clean marks. */
  lemma OneGenerationIsClean(run: seq<World>, acts: seq<Act>, a: nat, e: Event, g: nat)
    requires IsRun(run, acts) && a < |acts| && FirstAccepts(run[a], acts[a], e, g) && OneGeneration(run[a], e, g)
    ensures CleanMarks(run[a], e)
  {
    Reachable(run, acts, a);
    MarkWasAccepted(run[a], Stage(e, 1));
    MarkWasAccepted(run[a], Stage(e, 2));
  }

  /** So while an event has been accepted under one generation only, the chain holds unconditionally. */
  lemma OneGenerationChain(run: seq<World>, acts: seq<Act>, k: nat, j: Job, step: nat)
    requires IsRun(run, acts) && k < |acts| && BeginsSend(run[k], acts[k], j)
    requires OneGeneration(run[k], j.event, j.generation) && 1 <= step < j.step && Orderly(run[k], j.event.recipient)
    ensures Job(j.event, step, j.generation) in run[k].h.marked
    ensures run[k].h.marked[Job(j.event, step, j.generation)] == Sent
  {
    Reachable(run, acts, k);
    JobAccepted(run[k], acts[k].token);
    hide After, Enabled, Inv;
    var a := FirstAcceptance(run, acts, k, j.event, j.generation);
    AcceptedGrows(run, acts, a, k);
    OneGenerationIsClean(run, acts, a, j.event, j.generation);
    StageChain(run, acts, a, k, j, step);
  }

  lemma {:induction false} AcceptedGrows(run: seq<World>, acts: seq<Act>, i: nat, k: nat)
    requires IsRun(run, acts) && i <= k < |run|
    ensures run[i].h.accepted.Keys <= run[k].h.accepted.Keys
    decreases k - i
  {
    hide After, Enabled;
    if i < k {
      AcceptedGrows(run, acts, i, k - 1);
      StepKeepsAccepted(run[k - 1], acts[k - 1]);
    }
  }
}
