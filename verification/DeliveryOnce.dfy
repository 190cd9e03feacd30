/** Each event is accepted once. */
module DeliveryOnce {
  // Within the replay horizon each recipient's generation accepts an event once, whatever runs in between.

  import opened DeliveryState
  import opened DeliveryRun
  import opened DeliveryInvariant
  import opened DeliveryTheorems

  predicate Accepts(w: World, a: Act, e: Event, g: nat) {
    a.EnqueueAlert? && a.event == e && a.generation == g && Enqueues(w.r, e, g)
  }

  /** The enqueue markers, what was accepted, and the recipients' own keys are as before. */
  predicate SameMarkers(w: World, w': World) {
    && w'.r.enqueued == w.r.enqueued && w'.h.accepted == w.h.accepted
    && w'.r.generations == w.r.generations && w'.r.deleted == w.r.deleted
  }

  lemma {:induction false} PopSameMarkers(w: World, due: seq<Job>)
    ensures SameMarkers(w, PopJobs(w, due))
    decreases |due|
  {
    if due != [] {
      PopSameMarkers(PopOneJob(w, due[0]), due[1..]);
    }
  }

  lemma DeadLetterSameMarkers(w: World, id: nat, j: Job)
    ensures SameMarkers(w, SettleEntry(w, id, j, DeadLetter))
  {
  }

  lemma MarkSameMarkers(w: World, id: nat, j: Job, how: Settlement)
    requires how.Skip? || how.MarkSent?
    ensures SameMarkers(w, SettleEntry(w, id, j, how))
  {
  }

  lemma SettleSameMarkers(w: World, id: nat, j: Job, how: Settlement)
    ensures SameMarkers(w, SettleEntry(w, id, j, how))
  {
    if how.DeadLetter? {
      DeadLetterSameMarkers(w, id, j);
    } else if how.Skip? || how.MarkSent? {
      MarkSameMarkers(w, id, j, how);
    }
  }

  lemma RenewSameMarkers(w: World, t: nat, next: Point)
    requires t in w.ops
    ensures SameMarkers(w, RenewOp(w, t, next))
  {
  }

  lemma LookSameMarkers(w: World, t: nat, x: Answers)
    requires t in w.ops && (Looks(w.ops[t].point) || w.ops[t].point.CountFailure?)
    ensures SameMarkers(w, AdvanceOp(w, t, x))
  {
    hide Look;
  }

  lemma SendSameMarkers(w: World, t: nat, x: Answers)
    requires t in w.ops && (w.ops[t].point.BeginSend? || w.ops[t].point.EndSend?)
    ensures SameMarkers(w, AdvanceOp(w, t, x))
  {
  }

  lemma AdvanceSameMarkers(w: World, t: nat, x: Answers)
    requires t in w.ops
    ensures SameMarkers(w, AdvanceOp(w, t, x))
  {
    if w.ops[t].point.Settle? {
      SettleSameMarkers(Leave(w, t), w.ops[t].id, w.ops[t].job, w.ops[t].point.how);
      assert AdvanceOp(w, t, x) == SettleEntry(Leave(w, t), w.ops[t].id, w.ops[t].job, w.ops[t].point.how);
    } else if w.ops[t].point.Reguard? {
      RenewSameMarkers(w, t, RecheckContent);
      assert AdvanceOp(w, t, x) == RenewOp(w, t, RecheckContent);
    } else {
      hide AdvanceOp;
      if w.ops[t].point.BeginSend? || w.ops[t].point.EndSend? {
        SendSameMarkers(w, t, x);
      } else {
        LookSameMarkers(w, t, x);
      }
    }
  }

  lemma OpSameMarkers(w: World, a: Act)
    requires Enabled(w, a) && (a.Heartbeat? || a.Advance?)
    ensures SameMarkers(w, After(w, a))
  {
    if a.Advance? {
      AdvanceSameMarkers(w, a.token, a.answers);
      assert After(w, a) == AdvanceOp(w, a.token, a.answers);
    } else {
      RenewSameMarkers(w, a.token, w.ops[a.token].point);
      assert After(w, a) == RenewOp(w, a.token, w.ops[a.token].point);
    }
  }

  /** The steps that touch the enqueue markers or a recipient's own keys. */
  predicate Touches(a: Act) {
    a.EnqueueAlert? || a.DropMarker? || a.FenceUser? || a.RegisterUser?
  }

  lemma StepSameMarkers(w: World, a: Act)
    requires Enabled(w, a) && !Touches(a)
    ensures SameMarkers(w, After(w, a))
  {
    hide AdvanceOp, RenewOp, PopJobs, Claim, Accept, IsFloor, NextUnread, IsDue;
    if a.ClaimIdle? {
      ClaimFrame(w.r, a.id, a.consumer);
    } else if a.PopMature? {
      PopSameMarkers(w, a.due);
    } else if a.Heartbeat? || a.Advance? {
      OpSameMarkers(w, a);
    }
  }

  /** The event was accepted for generation `g`, and its marker lasts until `until` unless `g` is fenced. */
  predicate Marked(w: World, e: Event, g: nat, until: nat) {
    && (e, g) in w.h.accepted
    && (Generation(w.r, e.recipient) == g && e.recipient !in w.h.overlapped ==> e in w.r.enqueued && until <= w.r.enqueued[e])
  }

  lemma MarkedStays(w: World, a: Act, e: Event, g: nat, until: nat)
    requires Inv(w) && Enabled(w, a) && Marked(w, e, g, until) && until <= w.r.now + REPLAY_HORIZON
    requires StepEffect(w, a, After(w, a))
    ensures Marked(After(w, a), e, g, until)
  {
    var w' := After(w, a);
    hide StepEffect;
    assert AcceptedOk(w, (e, g));
    StepGenerations(w, a, e.recipient);
    if a.EnqueueAlert? {
      assert Enqueues(w.r, a.event, a.generation) ==> w' == Accept(w, a.event, a.generation, a.stale, a.clock);
    } else if a.DropMarker? {
      assert UserOk(w, a.event.recipient);
    } else if !Touches(a) {
      hide After;
      StepSameMarkers(w, a);
    }
  }

  lemma StepGenerations(w: World, a: Act, u: int)
    requires Enabled(w, a) && StepEffect(w, a, After(w, a))
    ensures Generation(After(w, a).r, u) == Generation(w.r, u) || Generation(After(w, a).r, u) !in Used(w, u)
  {
    hide After, Enabled;
  }

  lemma AcceptMarks(w: World, a: Act, e: Event, g: nat)
    requires Enabled(w, a) && Accepts(w, a, e, g)
    ensures Marked(After(w, a), e, g, w.r.now + REPLAY_HORIZON)
  {
  }

  lemma {:induction false} MarkedThrough(run: seq<World>, acts: seq<Act>, i: nat, k: nat, e: Event, g: nat)
    requires IsRun(run, acts) && i < k < |run| && Accepts(run[i], acts[i], e, g)
    ensures Marked(run[k], e, g, run[i].r.now + REPLAY_HORIZON)
    decreases k - i
  {
    hide After, Enabled, StepEffect, Inv, Marked, Accepts;
    if k == i + 1 {
      AcceptMarks(run[i], acts[i], e, g);
    } else {
      MarkedThrough(run, acts, i, k - 1, e, g);
      Reachable(run, acts, k - 1);
      RunRemembers(run, acts, i, k - 1);
      RunStep(run, acts, k - 1);
      MarkedStays(run[k - 1], acts[k - 1], e, g, run[i].r.now + REPLAY_HORIZON);
    }
  }

  /** Two acceptances of one event for one generation are at least the replay horizon apart. */
  lemma EnqueuedOnce(run: seq<World>, acts: seq<Act>, i: nat, k: nat, e: Event, g: nat)
    requires IsRun(run, acts) && i < k < |acts| && Accepts(run[i], acts[i], e, g) && Accepts(run[k], acts[k], e, g)
    requires e.recipient !in run[k].h.overlapped
    ensures run[i].r.now + REPLAY_HORIZON <= run[k].r.now
  {
    MarkedThrough(run, acts, i, k, e, g);
  }

  ghost predicate EverAccepted(w: World, e: Event) {
    exists g :: (e, g) in w.h.accepted && Job(e, 1, g) in w.h.jobs
  }

  /** The step accepts the event, for whichever generation. */
  predicate AcceptsEvent(w: World, a: Act, e: Event) {
    a.EnqueueAlert? && a.event == e && Enqueues(w.r, e, a.generation)
  }

  lemma TouchSetsMarker(w: World, a: Act, e: Event)
    requires Enabled(w, a) && Touches(a) && e in After(w, a).r.enqueued && !AcceptsEvent(w, a, e)
    ensures e in w.r.enqueued && After(w, a).r.enqueued[e] == w.r.enqueued[e]
  {
    hide AdvanceOp, RenewOp, PopJobs, SettleEntry;
  }

  /** Only an acceptance sets a marker. */
  lemma StepSetsMarker(w: World, a: Act, e: Event)
    requires Enabled(w, a) && e in After(w, a).r.enqueued && !AcceptsEvent(w, a, e)
    ensures e in w.r.enqueued && After(w, a).r.enqueued[e] == w.r.enqueued[e]
  {
    hide After, Enabled;
    if Touches(a) {
      TouchSetsMarker(w, a, e);
    } else {
      StepSameMarkers(w, a);
    }
  }

  lemma AcceptRecords(w: World, a: Act, e: Event)
    requires Enabled(w, a) && AcceptsEvent(w, a, e)
    ensures EverAccepted(After(w, a), e)
  {
    hide AdvanceOp, RenewOp, PopJobs, SettleEntry;
    assert (e, a.generation) in After(w, a).h.accepted && Job(e, 1, a.generation) in After(w, a).h.jobs;
  }

  lemma StepKeepsAccepted(w: World, a: Act)
    requires Enabled(w, a)
    ensures w.h.accepted.Keys <= After(w, a).h.accepted.Keys
  {
    hide AdvanceOp, RenewOp, PopJobs, SettleEntry;
    if !Touches(a) {
      StepSameMarkers(w, a);
      hide After;
    }
  }

  /** A refusal because the marker is live means that the event's jobs had been accepted before. */
  lemma {:induction false} MarkerMeansAccepted(run: seq<World>, acts: seq<Act>, i: nat, e: Event)
    requires IsRun(run, acts) && i < |run| && e in run[i].r.enqueued
    ensures EverAccepted(run[i], e)
  {
    if i > 0 {
      var w, a := run[i - 1], acts[i - 1];
      assert Enabled(w, a) && run[i] == After(w, a);
      RunRemembers(run, acts, i - 1, i);
      hide After, Enabled;
      if AcceptsEvent(w, a, e) {
        AcceptRecords(w, a, e);
      } else {
        StepSetsMarker(w, a, e);
        MarkerMeansAccepted(run, acts, i - 1, e);
        StepKeepsAccepted(w, a);
        var g :| (e, g) in w.h.accepted && Job(e, 1, g) in w.h.jobs;
        assert (e, g) in run[i].h.accepted && Job(e, 1, g) in run[i].h.jobs;
      }
    }
  }

  // ---- Exactly one acceptance ------------------------------------------------------------------------------

  predicate Fences(a: Act, u: int) {
    a.FenceUser? && a.user == u
  }

  lemma TouchKeepsUser(w: World, a: Act, u: int)
    requires Enabled(w, a) && Touches(a) && !Fences(a, u) && u !in w.r.deleted
    ensures u !in After(w, a).r.deleted && Generation(After(w, a).r, u) == Generation(w.r, u)
  {
    hide AdvanceOp, RenewOp, PopJobs, SettleEntry;
  }

  lemma StepKeepsUser(w: World, a: Act, u: int)
    requires Enabled(w, a) && !Fences(a, u) && u !in w.r.deleted
    ensures u !in After(w, a).r.deleted && Generation(After(w, a).r, u) == Generation(w.r, u)
  {
    hide After, Enabled;
    if Touches(a) {
      TouchKeepsUser(w, a, u);
    } else {
      StepSameMarkers(w, a);
    }
  }

  /** Without a fence a registered recipient stays registered under his generation. */
  lemma {:induction false} UserKept(run: seq<World>, acts: seq<Act>, i: nat, k: nat, u: int)
    requires IsRun(run, acts) && i <= k < |run| && u !in run[i].r.deleted
    requires forall m :: i <= m < k ==> !Fences(acts[m], u)
    ensures u !in run[k].r.deleted && Generation(run[k].r, u) == Generation(run[i].r, u)
    decreases k - i
  {
    if i < k {
      UserKept(run, acts, i, k - 1, u);
      assert Enabled(run[k - 1], acts[k - 1]) && run[k] == After(run[k - 1], acts[k - 1]);
      hide After, Enabled;
      StepKeepsUser(run[k - 1], acts[k - 1], u);
    }
  }

  /** A marker that appears was set by an acceptance. */
  lemma {:induction false} MarkerWasSet(run: seq<World>, acts: seq<Act>, i: nat, k: nat, e: Event) returns (a: nat)
    requires IsRun(run, acts) && i <= k < |run| && !IsEnqueued(run[i].r, e) && IsEnqueued(run[k].r, e)
    ensures i <= a < k && AcceptsEvent(run[a], acts[a], e)
    decreases k - i
  {
    hide After, Enabled;
    if IsEnqueued(run[k - 1].r, e) {
      a := MarkerWasSet(run, acts, i, k - 1, e);
    } else {
      a := k - 1;
      RunRemembers(run, acts, k - 1, k);
      assert Enabled(run[k - 1], acts[k - 1]) && run[k] == After(run[k - 1], acts[k - 1]);
      if !AcceptsEvent(run[k - 1], acts[k - 1], e) {
        StepSetsMarker(run[k - 1], acts[k - 1], e);
      }
    }
  }

  /** An event that is not marked, offered at least once under the recipient's generation within the horizon, while no
      deletion fences the recipient: of all the offers, by whichever workers and under whichever crashes, exactly one
      is accepted. */
  lemma AcceptedExactlyOnce(run: seq<World>, acts: seq<Act>, i: nat, m: nat, k: nat, e: Event) returns (a: nat)
    requires IsRun(run, acts) && i <= m < k < |run| && run[k].r.now < run[i].r.now + REPLAY_HORIZON
    requires !IsEnqueued(run[i].r, e) && e.recipient !in run[i].r.deleted
    requires acts[m].EnqueueAlert? && acts[m].event == e && acts[m].generation == Generation(run[i].r, e.recipient)
    requires e.recipient !in run[k].h.overlapped && forall b :: i <= b < k ==> !Fences(acts[b], e.recipient)
    ensures i <= a < k && Accepts(run[a], acts[a], e, Generation(run[i].r, e.recipient))
    ensures forall b :: i <= b < k && AcceptsEvent(run[b], acts[b], e) ==> b == a
  {
    UserKept(run, acts, i, m, e.recipient);
    if IsEnqueued(run[m].r, e) {
      a := MarkerWasSet(run, acts, i, m, e);
    } else {
      a := m;
    }
    UserKept(run, acts, i, a, e.recipient);
    forall b | i <= b < k && AcceptsEvent(run[b], acts[b], e)
      ensures b == a
    {
      UserKept(run, acts, i, b, e.recipient);
      RunRemembers(run, acts, i, a);
      RunRemembers(run, acts, i, b);
      RunRemembers(run, acts, a, k);
      RunRemembers(run, acts, b, k);
      OnlyOneOf(run, acts, a, b, e, Generation(run[i].r, e.recipient));
    }
  }

  lemma OnlyOneOf(run: seq<World>, acts: seq<Act>, a: nat, b: nat, e: Event, g: nat)
    requires IsRun(run, acts) && a < |acts| && b < |acts| && Accepts(run[a], acts[a], e, g) && Accepts(run[b], acts[b], e, g)
    requires run[b].r.now < run[a].r.now + REPLAY_HORIZON && run[a].r.now < run[b].r.now + REPLAY_HORIZON
    requires e.recipient !in run[a].h.overlapped && e.recipient !in run[b].h.overlapped
    ensures a == b
  {
    if a < b {
      EnqueuedOnce(run, acts, a, b, e, g);
    } else if b < a {
      EnqueuedOnce(run, acts, b, a, e, g);
    }
  }

  /** Two sends of one stage under different generations have a fence of the recipient between them. */
  lemma ResendNeedsFence(run: seq<World>, acts: seq<Act>, i: nat, k: nat, j: Job, later: Job)
    requires IsRun(run, acts) && i <= k < |acts| && BeginsSend(run[i], acts[i], j) && BeginsSend(run[k], acts[k], later)
    requires StageOf(j) == StageOf(later) && j.generation != later.generation
    ensures exists m :: i <= m < k && Fences(acts[m], j.event.recipient)
  {
    if forall m :: i <= m < k ==> !Fences(acts[m], j.event.recipient) {
      UserKept(run, acts, i, k, j.event.recipient);
    }
  }

  /** A stage whose message Telegram accepted is sent again only if the first sender lost its hold before it marked the
      stage, or the recipient was fenced after the first send began. */
  lemma StageSentAgain(run: seq<World>, acts: seq<Act>, i: nat, m: nat, k: nat, t: nat, j: Job, later: Job)
    requires IsRun(run, acts) && i <= m < k < |acts| && BeginsSend(run[i], acts[i], j)
    requires acts[m].Advance? && acts[m].token == t && acts[m].answers.outcome == Delivered
    requires t in run[m].ops && run[m].ops[t].point == Sending && run[m].ops[t].job == j
    requires BeginsSend(run[k], acts[k], later) && StageOf(later) == StageOf(j)
    requires j.event.recipient !in run[k].h.overlapped
    ensures (exists p :: m < p <= k && LosesHold(run[p], acts[p], t)) ||
            (exists p :: i <= p < k && Fences(acts[p], j.event.recipient))
  {
    if later.generation == j.generation {
      assert later == j;
      DoubleSendNeedsLoss(run, acts, m, k, t, j);
    } else {
      ResendNeedsFence(run, acts, i, k, j, later);
    }
  }
}
