/** What the delivery pipeline guarantees in every run. */
module DeliveryTheorems {
  import opened DeliveryState
  import opened DeliveryRun
  import opened DeliveryInvariant
  import opened DeliveryCarry
  import opened DeliveryProofs
  import opened DeliverySteps

  /** An operation past its age check works on an event accepted less than a marker's life ago. */
  lemma OpYoung(w: World, t: nat)
    requires Inv(w) && t in w.ops && InBudget(w, w.ops[t]) && PastAge(w.ops[t].point)
    ensures Young(w, w.ops[t].job)
  {
    OpJob(w, t);
    var j := w.ops[t].job;
    assert JobOk(w, j);
    assert AcceptedOk(w, (j.event, j.generation));
  }

  lemma KeepSettle(w: World, t: nat, how: Settlement)
    requires Inv(w) && t in w.ops && w.ops[t].point == Settle(how) && Active(w, w.ops[t])
    ensures Inv(SettleEntry(Leave(w, t), w.ops[t].id, w.ops[t].job, how))
  {
    var id, j, w1 := w.ops[t].id, w.ops[t].job, Leave(w, t);
    SettlesAfterLeaving(w, t);
    OpJob(w, t);
    if how.Drop? {
      assert ReasonHolds(w1, j, how.reason) by {
        ElsewhereQueue(w, w1);
        ReasonCarries(w, w1, j, how.reason);
      }
      KeepDropEntry(w1, id, j, how.reason);
    } else if how.PutBack? {
      KeepPutBack(w1, id, j);
    } else {
      OpYoung(w, t);
      KeepMarking(w, w1, t, how);
    }
  }

  lemma KeepMarking(w: World, w1: World, t: nat, how: Settlement)
    requires Inv(w) && t in w.ops && w.ops[t].point == Settle(how) && w1 == Leave(w, t)
    requires how.Skip? || how.MarkSent? || how.DeadLetter?
    requires Inv(w1) && Settles(w1, w.ops[t].id, w.ops[t].job) && Young(w1, w.ops[t].job)
    ensures Inv(SettleEntry(w1, w.ops[t].id, w.ops[t].job, how))
  {
    var id, j := w.ops[t].id, w.ops[t].job;
    assert OpOk(w, t);
    match how
    case Skip => KeepMarkEntry(w1, SettleEntry(w1, id, j, how), id, j, Skipped);
    case MarkSent => KeepMarkEntry(w1, SettleEntry(w1, id, j, how), id, j, Sent);
    case DeadLetter => KeepDeadLetter(w1, id, j);
  }

  lemma KeepDeadLetter(w: World, id: nat, j: Job)
    requires Inv(w) && Settles(w, id, j) && Young(w, j)
    ensures Inv(SettleEntry(w, id, j, DeadLetter))
  {
    if Allowed(w.r, j) {
      KeepMarkEntry(w, SettleEntry(w, id, j, DeadLetter), id, j, Failed);
    } else {
      if Counts(w, j) {
        DeletedCountsNot(w, j);
      }
      KeepDropEntry(w, id, j, Privacy);
      KeepForgetRetry(Close(w.(r := Ack(w.r, id)), j, Privacy), id);
    }
  }

  lemma KeepRefusedBegin(w: World, t: nat)
    requires Inv(w) && t in w.ops && w.ops[t].point.BeginSend? && !Allowed(w.r, w.ops[t].job) && Active(w, w.ops[t])
    ensures Inv(w.(ops := w.ops[t := w.ops[t].(point := Settle(Drop(Privacy)))]))
  {
    var w' := w.(ops := w.ops[t := w.ops[t].(point := Settle(Drop(Privacy)))]);
    OpJob(w, t);
    if Counts(w, w.ops[t].job) {
      DeletedCountsNot(w, w.ops[t].job);
    }
    MovedOpOk(w, w', t, Settle(Drop(Privacy)));
    StepElsewhere(w, w');
  }

  lemma KeepAdvance(w: World, t: nat, x: Answers)
    requires Inv(w) && CanAdvance(w, t)
    ensures Inv(AdvanceOp(w, t, x))
  {
    match w.ops[t].point
    case Reguard => KeepRenew(w, t, RecheckContent);
    case BeginSend =>
      if Allowed(w.r, w.ops[t].job) { KeepBegin(w, t); } else { KeepRefusedBegin(w, t); }
    case CountFailure => KeepCountFailure(w, t, x);
    case Settle(how) => KeepSettle(w, t, how);
    case EndSend => KeepEnd(w, t);
    case _ => KeepLook(w, t, x);
  }

  /** Every step keeps the invariant. */
  lemma KeepStep(w: World, a: Act)
    requires Inv(w) && Enabled(w, a)
    ensures Inv(After(w, a))
  {
    match a
    case Tick(ms) => KeepTick(w, ms);
    case EnqueueAlert(e, g, stale, clock) => if Accepts(w, e, g) { KeepAccept(w, e, g, stale, clock); }
    case PopMature(_, _, due) => KeepPop(w, due);
    case ReadNew(id, c) => KeepRead(w, id, c);
    case ClaimIdle(id, c) => KeepClaim(w, id, c);
    case StartOp(t, id, c) => KeepStart(w, t, id, c);
    case Heartbeat(t) => KeepRenew(w, t, w.ops[t].point);
    case Advance(t, x) => KeepAdvance(w, t, x);
    case Cancel(t) => KeepLeave(w, t);
    case Crash(t) => KeepCrash(w, t);
    case ReleaseLease(s, t) => KeepReleaseLease(w, s, t);
    case TrimStream(floor) => KeepTrim(w, floor);
    case ForgetRetry(id) => KeepForgetRetry(w, id);
    case FenceUser(u, g) => KeepFence(w, u, g);
    case SeeZero(u) => KeepSeeZero(w, u);
    case DropMark(s) => KeepDropMark(w, s);
    case DropMarker(e) => KeepDropMarker(w, e);
    case DropDelayed(j) => KeepDropDelayed(w, j);
    case ScrubAck(id) => KeepScrubAck(w, id);
    case ScrubDelete(id) => KeepScrubDelete(w, id);
    case EndDeletion(u) => KeepEndDeletion(w, u);
    case RegisterUser(u) => KeepRegister(w, u);
  }

  lemma {:induction false} Reachable(run: seq<World>, acts: seq<Act>, i: nat)
    requires IsRun(run, acts) && i < |run|
    ensures Inv(run[i])
    decreases i
  {
    if i == 0 {
      InitialInv(run[0]);
    } else {
      Reachable(run, acts, i - 1);
      KeepStep(run[i - 1], acts[i - 1]);
    }
  }

  // ---- Nothing is lost ------------------------------------------------------------------------------------

  /** Every accepted job is delayed, waiting in the stream, pending, or closed for a reason that holds. */
  lemma NoJobLost(run: seq<World>, acts: seq<Act>, i: nat, j: Job)
    requires IsRun(run, acts) && i < |run| && j in run[i].h.jobs
    ensures var w := run[i];
      || j in w.r.delayed
      || (exists id :: id in w.r.entries && w.r.entries[id] == j && w.r.cursor < id)
      || (exists id :: id in w.r.entries && w.r.entries[id] == j && id in w.r.pending)
      || (j in w.h.closed && ReasonHolds(w, j, w.h.closed[j]))
  {
    Reachable(run, acts, i);
    var w := run[i];
    assert JobOk(w, j);
    if j !in w.r.delayed && j !in w.h.closed {
      var id :| Live(w, id) && w.h.log[id] == j;
      assert EntryOk(w, id);
    }
  }

  /** A job of the present generation that is closed was marked, is over a week old, or its stage had been sent. */
  lemma ClosedCurrentJob(run: seq<World>, acts: seq<Act>, i: nat, j: Job)
    requires IsRun(run, acts) && i < |run| && j in run[i].h.closed && Counts(run[i], j)
    ensures var w := run[i];
      j in w.h.marked || w.r.now - j.event.posted > MAX_AGE || StageSent(w, StageOf(j))
  {
    Reachable(run, acts, i);
    assert ReasonHolds(run[i], j, run[i].h.closed[j]);
  }

  // ---- History only grows -----------------------------------------------------------------------------------

  ghost predicate Remembers(w: World, w': World) {
    && w.r.now <= w'.r.now && w.h.jobs <= w'.h.jobs
    && w.h.marked.Keys <= w'.h.marked.Keys && w.h.sentBy <= w'.h.sentBy
    && (forall u :: Used(w, u) <= Used(w', u))
    && w.h.overlapped <= w'.h.overlapped && w.h.late <= w'.h.late && w.h.tokens <= w'.h.tokens
  }

  /** No reservation appears for a user marked deleted. */
  ghost predicate NoNewSends(w: World, w': World) {
    forall t :: t in w'.h.reservations && (t !in w.h.reservations || w'.h.reservations[t] != w.h.reservations[t]) ==>
      w'.h.reservations[t].user !in w.r.deleted
  }

  /** Remembers, and leaves the recipients' keys and the leases alone. */
  ghost predicate Apart(w: World, w': World) {
    && Remembers(w, w') && NoNewSends(w, w')
    && w'.r.deleted == w.r.deleted && w'.r.generations == w.r.generations && w'.r.leases == w.r.leases && w'.r.now == w.r.now
    && w'.h.overlapped == w.h.overlapped
  }

  lemma {:induction false} PopApart(w: World, due: seq<Job>)
    ensures Apart(w, PopJobs(w, due))
    decreases |due|
  {
    if due != [] {
      PopApart(PopOneJob(w, due[0]), due[1..]);
    }
  }

  lemma LeaveApart(w: World, t: nat)
    requires t in w.ops
    ensures Apart(w, Leave(w, t))
  {
  }

  lemma MarkApart(w: World, id: nat, j: Job, m: Mark)
    ensures Apart(w, NoteMark(w.(r := MarkAndAck(w.r, id, StageOf(j), m)), j, m))
  {
  }

  lemma DeadLetterApart(w: World, id: nat, j: Job)
    ensures Apart(w, SettleEntry(w, id, j, DeadLetter))
  {
  }

  lemma PlainSettleApart(w: World, id: nat, j: Job, how: Settlement)
    requires how.Drop? || how.PutBack?
    ensures Apart(w, SettleEntry(w, id, j, how))
  {
  }

  lemma SettleApart(w: World, id: nat, j: Job, how: Settlement)
    ensures Apart(w, SettleEntry(w, id, j, how))
  {
    hide Apart;
    if how.Skip? {
      MarkApart(w, id, j, Skipped);
    } else if how.MarkSent? {
      MarkApart(w, id, j, Sent);
    } else if how.DeadLetter? {
      DeadLetterApart(w, id, j);
    } else {
      PlainSettleApart(w, id, j, how);
    }
  }

  lemma RenewApart(w: World, t: nat, next: Point)
    requires t in w.ops
    ensures var w' := RenewOp(w, t, next); var op := w.ops[t];
      if CanRenew(w.r, op.id, StageOf(op.job), op.consumer, t)
      then Remembers(w, w') && w'.r.generations == w.r.generations && w'.r.now == w.r.now
        && NoNewSends(w, w') && w'.r.deleted == w.r.deleted && w'.h.overlapped == w.h.overlapped
        && w'.r.leases == w.r.leases[StageOf(op.job) := Expiring(t, w.r.now + LEASE_LIFE)]
      else Apart(w, w')
  {
  }

  lemma LookApart(w: World, t: nat, x: Answers)
    requires t in w.ops && Looks(w.ops[t].point)
    ensures Apart(w, AdvanceOp(w, t, x))
  {
    hide Look;
  }

  lemma BeginApart(w: World, t: nat)
    requires t in w.ops && Allowed(w.r, w.ops[t].job)
    ensures Apart(w, Begun(w, t))
  {
  }

  lemma EndApart(w: World, t: nat)
    requires t in w.ops
    ensures Apart(w, Ended(w, t))
  {
  }

  lemma FailureApart(w: World, t: nat, x: Answers)
    requires t in w.ops && w.ops[t].point.CountFailure?
    ensures Apart(w, AdvanceOp(w, t, x))
  {
  }

  lemma AdvanceApart(w: World, t: nat, x: Answers)
    requires t in w.ops && !w.ops[t].point.Reguard?
    ensures Apart(w, AdvanceOp(w, t, x))
  {
    if w.ops[t].point.Settle? {
      LeaveApart(w, t);
      SettleApart(Leave(w, t), w.ops[t].id, w.ops[t].job, w.ops[t].point.how);
      assert AdvanceOp(w, t, x) == SettleEntry(Leave(w, t), w.ops[t].id, w.ops[t].job, w.ops[t].point.how);
    } else if w.ops[t].point.EndSend? {
      EndApart(w, t);
      assert AdvanceOp(w, t, x) == Ended(w, t);
    } else if w.ops[t].point.BeginSend? {
      if Allowed(w.r, w.ops[t].job) {
        BeginApart(w, t);
        assert AdvanceOp(w, t, x) == Begun(w, t);
      }
    } else {
      hide AdvanceOp;
      if w.ops[t].point.CountFailure? {
        FailureApart(w, t, x);
      } else {
        LookApart(w, t, x);
      }
    }
  }

  lemma EnqueueApart(w: World, e: Event, g: nat, stale: bool, clock: int)
    requires Enabled(w, EnqueueAlert(e, g, stale, clock))
    ensures Apart(w, After(w, EnqueueAlert(e, g, stale, clock)))
  {
  }

  /** What a step does to the history, the generations and the leases, by kind of step. */
  ghost predicate StepEffect(w: World, a: Act, w': World) {
    && Remembers(w, w')
    && (forall u :: Generation(w'.r, u) == Generation(w.r, u) || Generation(w'.r, u) !in Used(w, u))
    && NoNewSends(w, w')
    && (forall u :: u in w.r.deleted && a != RegisterUser(u) ==> u in w'.r.deleted)
    && (forall u {:trigger u in w'.h.overlapped} :: u in w'.h.overlapped <==> u in w.h.overlapped || Overlaps(w, a, u))
    && (a.FenceUser? ==> Generation(w'.r, a.user) !in Used(w, a.user))
    && (forall s: Stage, t: nat, until: nat {:trigger HeldUntil(w', s, t, until)} ::
          HeldUntil(w, s, t, until) && w.r.now < until && until <= w.r.now + LEASE_LIFE && a != ReleaseLease(s, t) ==>
            HeldUntil(w', s, t, until))
    && (forall s: Stage, t: nat {:trigger Renews(w, a, s, t)} :: Renews(w, a, s, t) ==> HeldUntil(w', s, t, w.r.now + LEASE_LIFE))
  }

  lemma ApartEffect(w: World, a: Act, w': World)
    requires Apart(w, w') && !a.FenceUser? && !a.RegisterUser? && !a.StartOp? && !a.Heartbeat?
    requires a.Advance? && a.token in w.ops ==> !w.ops[a.token].point.Reguard?
    ensures StepEffect(w, a, w')
  {
    hide Overlaps, Renews;
    NoProfileStep(w, a);
    NoRenewal(w, a);
  }

  lemma NoProfileStep(w: World, a: Act)
    requires !a.FenceUser? && !a.RegisterUser?
    ensures forall u :: !Overlaps(w, a, u)
  {
  }

  lemma NoRenewal(w: World, a: Act)
    requires !a.StartOp? && !a.Heartbeat? && (a.Advance? && a.token in w.ops ==> !w.ops[a.token].point.Reguard?)
    ensures forall s: Stage, t: nat :: !Renews(w, a, s, t)
  {
  }

  lemma FenceEffect(w: World, u: int, g: nat)
    requires g !in Used(w, u)
    ensures StepEffect(w, FenceUser(u, g), Fenced(w, u, g))
  {
  }

  lemma ReleaseEffect(w: World, s: Stage, t: nat)
    ensures StepEffect(w, ReleaseLease(s, t), w.(r := Release(w.r, s, t)))
  {
  }

  lemma RegisterEffect(w: World, u: int)
    ensures StepEffect(w, RegisterUser(u), Registered(w, u))
  {
  }

  lemma StartEffect(w: World, t: nat, id: nat, c: nat)
    requires CanStart(w, t, id, c)
    ensures StepEffect(w, StartOp(t, id, c), Started(w, t, id, c))
  {
  }

  lemma RenewEffect(w: World, a: Act, next: Point)
    requires (a.Heartbeat? || a.Advance?) && a.token in w.ops && (a.Advance? ==> w.ops[a.token].point.Reguard?)
    ensures StepEffect(w, a, RenewOp(w, a.token, next))
  {
    RenewApart(w, a.token, next);
    hide RenewOp;
  }

  lemma OpStepEffect(w: World, a: Act)
    requires Enabled(w, a) && (a.StartOp? || a.Heartbeat? || a.Advance?)
    ensures StepEffect(w, a, After(w, a))
  {
    hide StepEffect;
    match a
    case StartOp(t, id, c) => StartEffect(w, t, id, c);
    case Heartbeat(t) => RenewEffect(w, a, w.ops[t].point);
    case Advance(t, x) =>
      if w.ops[t].point.Reguard? {
        RenewEffect(w, a, RecheckContent);
        assert AdvanceOp(w, t, x) == RenewOp(w, t, RecheckContent);
      } else {
        AdvanceApart(w, t, x);
        ApartEffect(w, a, AdvanceOp(w, t, x));
      }
  }

  /** The steps of deletion and registration, and a consumer's release. */
  predicate UserStep(a: Act) {
    || a.FenceUser? || a.RegisterUser? || a.ReleaseLease? || a.SeeZero? || a.DropMark? || a.DropMarker? || Closes(a)
    || a.EndDeletion?
  }

  predicate Closes(a: Act) {
    a.DropDelayed? || a.ScrubAck? || a.ScrubDelete?
  }

  lemma ClosingApart(w: World, a: Act)
    requires Enabled(w, a) && Closes(a)
    ensures Apart(w, After(w, a))
  {
    hide AdvanceOp, RenewOp, PopJobs, SettleEntry;
  }

  lemma CleaningApart(w: World, a: Act)
    requires Enabled(w, a) && (a.SeeZero? || a.DropMark? || a.DropMarker? || a.EndDeletion?)
    ensures Apart(w, After(w, a))
  {
    hide AdvanceOp, RenewOp, PopJobs, SettleEntry;
  }

  lemma DeletionStepEffect(w: World, a: Act)
    requires Enabled(w, a) && (Closes(a) || a.SeeZero? || a.DropMark? || a.DropMarker? || a.EndDeletion?)
    ensures StepEffect(w, a, After(w, a))
  {
    hide StepEffect;
    if Closes(a) {
      ClosingApart(w, a);
    } else {
      CleaningApart(w, a);
    }
    ApartEffect(w, a, After(w, a));
  }

  lemma UserStepEffect(w: World, a: Act)
    requires Enabled(w, a) && UserStep(a)
    ensures StepEffect(w, a, After(w, a))
  {
    hide StepEffect;
    if a.FenceUser? {
      FenceEffect(w, a.user, a.generation);
    } else if a.RegisterUser? {
      RegisterEffect(w, a.user);
    } else if a.ReleaseLease? {
      ReleaseEffect(w, a.stage, a.token);
    } else {
      DeletionStepEffect(w, a);
    }
  }

  lemma ReadingApart(w: World, a: Act)
    requires Enabled(w, a) && (a.ReadNew? || a.ClaimIdle? || a.TrimStream? || a.ForgetRetry? || a.Crash?)
    ensures Apart(w, After(w, a))
  {
    hide AdvanceOp, RenewOp, PopJobs, SettleEntry, Claim, Accept, IsFloor, NextUnread, IsDue;
    if a.ClaimIdle? {
      ClaimFrame(w.r, a.id, a.consumer);
    }
  }

  lemma StreamApart(w: World, a: Act)
    requires Enabled(w, a) && !UserStep(a) && !a.StartOp? && !a.Heartbeat? && !a.Advance? && !a.EnqueueAlert? && !a.Tick?
    ensures Apart(w, After(w, a))
  {
    hide Apart, AdvanceOp, RenewOp, PopJobs, SettleEntry;
    if a.PopMature? {
      PopApart(w, a.due);
    } else if a.Cancel? {
      LeaveApart(w, a.token);
    } else {
      ReadingApart(w, a);
    }
  }

  lemma TickEffect(w: World, ms: nat)
    ensures StepEffect(w, Tick(ms), w.(r := w.r.(now := w.r.now + ms)))
  {
  }

  lemma StreamStepEffect(w: World, a: Act)
    requires Enabled(w, a) && !UserStep(a) && !a.StartOp? && !a.Heartbeat? && !a.Advance?
    ensures StepEffect(w, a, After(w, a))
  {
    hide StepEffect;
    if a.Tick? {
      TickEffect(w, a.ms);
    } else {
      if a.EnqueueAlert? {
        EnqueueApart(w, a.event, a.generation, a.stale, a.clock);
      } else {
        StreamApart(w, a);
      }
      ApartEffect(w, a, After(w, a));
    }
  }

  lemma StepHasEffect(w: World, a: Act)
    requires Enabled(w, a)
    ensures StepEffect(w, a, After(w, a))
  {
    hide After;
    if a.StartOp? || a.Heartbeat? || a.Advance? {
      OpStepEffect(w, a);
    } else if UserStep(a) {
      UserStepEffect(w, a);
    } else {
      StreamStepEffect(w, a);
    }
  }

  lemma RunStep(run: seq<World>, acts: seq<Act>, i: nat)
    requires IsRun(run, acts) && i < |acts|
    ensures Enabled(run[i], acts[i]) && StepEffect(run[i], acts[i], run[i + 1])
  {
    hide After;
    StepHasEffect(run[i], acts[i]);
  }

  lemma {:induction false} RunRemembers(run: seq<World>, acts: seq<Act>, i: nat, k: nat)
    requires IsRun(run, acts) && i <= k < |run|
    ensures Remembers(run[i], run[k])
    decreases k - i
  {
    hide After, Enabled;
    if i < k {
      RunRemembers(run, acts, i, k - 1);
      RunStep(run, acts, k - 1);
    }
  }

  /** The users left out by a theorem are those for whom a profile operation began beside a deletion of theirs, which a
      deletion can tell from its lock: it is no longer its own. */
  lemma {:induction false} OverlappedIff(run: seq<World>, acts: seq<Act>, i: nat, u: int)
    requires IsRun(run, acts) && i < |run|
    ensures u in run[i].h.overlapped <==> exists m :: 0 <= m < i && Overlaps(run[m], acts[m], u)
  {
    hide After, Enabled, Overlaps;
    if i > 0 {
      OverlappedIff(run, acts, i - 1, u);
      RunStep(run, acts, i - 1);
      assert u in run[i].h.overlapped <==> u in run[i - 1].h.overlapped || Overlaps(run[i - 1], acts[i - 1], u);
    }
  }

  // ---- At most one send is ever completed ---------------------------------------------------------------------

  /** Once a job's stage is marked sent, skipped or failed for it, no send of that job ever begins again,
      neither after the mark nor after the enqueue marker has expired. */
  lemma NeverSentAfterMark(run: seq<World>, acts: seq<Act>, i: nat, k: nat, j: Job)
    requires IsRun(run, acts) && i <= k < |acts| && j in run[i].h.marked
    requires j.event.recipient !in run[k].h.overlapped
    ensures !BeginsSend(run[k], acts[k], j)
  {
    if BeginsSend(run[k], acts[k], j) {
      Reachable(run, acts, k);
      RunRemembers(run, acts, i, k);
      var w, t := run[k], acts[k].token;
      OpJob(w, t);
      OpYoung(w, t);
      assert MarkedOk(w, j);
      assert Live(w, w.ops[t].id);
    }
  }

  /** When a send begins, no other operation of that stage is active: the earlier sender, if any, has crashed,
      been cancelled or lost its lease without writing its mark. */
  lemma SendsAlone(run: seq<World>, acts: seq<Act>, k: nat, j: Job, other: nat)
    requires IsRun(run, acts) && k < |acts| && BeginsSend(run[k], acts[k], j)
    requires other in run[k].ops && other != acts[k].token && StageOf(run[k].ops[other].job) == StageOf(j)
    requires !run[k].ops[other].point.EndSend?
    ensures !Active(run[k], run[k].ops[other])
  {
    Reachable(run, acts, k);
    AloneOnStage(run[k], acts[k].token);
  }

  /** An active operation that is about to settle a current job finds it unmarked. */
  lemma SettlesUnmarked(w: World, t: nat)
    requires Inv(w) && t in w.ops && w.ops[t].point.Settle? && !w.ops[t].point.how.Drop? && Active(w, w.ops[t])
    requires Counts(w, w.ops[t].job)
    ensures w.ops[t].job !in w.h.marked
  {
    OpJob(w, t);
    OpYoung(w, t);
    assert w.ops[t].job in w.h.marked ==> MarkedOk(w, w.ops[t].job);
    assert Live(w, w.ops[t].id);
  }

  /** A stage's mark is written for a current job only once: settling it again is impossible. */
  lemma MarkedOnce(run: seq<World>, acts: seq<Act>, k: nat, t: nat)
    requires IsRun(run, acts) && k < |run| && t in run[k].ops
    requires run[k].ops[t].point.Settle? && !run[k].ops[t].point.how.Drop? && Active(run[k], run[k].ops[t])
    requires Counts(run[k], run[k].ops[t].job)
    ensures run[k].ops[t].job !in run[k].h.marked
  {
    Reachable(run, acts, k);
    SettlesUnmarked(run[k], t);
  }

  /** Operation `t` crashes, is cancelled, has let its lease or budget lapse, or learns that it was displaced. */
  predicate LosesHold(w: World, a: Act, t: nat) {
    || a == Crash(t) || a == Cancel(t)
    || (t in w.ops && !Active(w, w.ops[t]))
    || (a == Heartbeat(t) && t in w.ops && !CanRenew(w.r, w.ops[t].id, StageOf(w.ops[t].job), w.ops[t].consumer, t))
  }

  /** Telegram accepted the message and the operation is about to mark the stage. */
  predicate AboutToMark(w: World, t: nat, j: Job) {
    t in w.ops && w.ops[t].job == j && w.ops[t].point == Settle(MarkSent)
  }

  lemma {:induction false} PopKeepsOps(w: World, due: seq<Job>)
    ensures PopJobs(w, due).ops == w.ops
    decreases |due|
  {
    if due != [] {
      PopKeepsOps(PopOneJob(w, due[0]), due[1..]);
    }
  }

  predicate ActsFor(a: Act, t: nat) {
    (a.Heartbeat? || a.Advance? || a.Cancel? || a.Crash?) && a.token == t
  }

  lemma OtherOpStays(w: World, a: Act, t: nat)
    requires Enabled(w, a) && t in w.ops && a.Advance? && a.token != t
    ensures t in After(w, a).ops && After(w, a).ops[t] == w.ops[t]
  {
    hide Look;
  }

  /** A step of another operation, or of no operation, leaves this one where it is. */
  lemma OpStays(w: World, a: Act, t: nat)
    requires Enabled(w, a) && t in w.ops && !ActsFor(a, t)
    ensures t in After(w, a).ops && After(w, a).ops[t] == w.ops[t]
  {
    if a.PopMature? {
      PopKeepsOps(w, a.due);
    } else if a.Advance? {
      OtherOpStays(w, a, t);
    } else {
      hide AdvanceOp;
    }
  }

  lemma MarkStep(w: World, a: Act, t: nat, j: Job)
    requires Enabled(w, a) && AboutToMark(w, t, j) && !LosesHold(w, a, t)
    ensures AboutToMark(After(w, a), t, j) || j in After(w, a).h.marked
  {
    if !ActsFor(a, t) {
      OpStays(w, a, t);
    } else if a.Advance? {
      assert After(w, a) == SettleEntry(Leave(w, t), w.ops[t].id, j, MarkSent);
    } else {
      assert a == Heartbeat(t);
    }
  }

  lemma {:induction false} MarksUnlessLost(run: seq<World>, acts: seq<Act>, m: nat, k: nat, t: nat, j: Job)
    requires IsRun(run, acts) && m < k < |run| && AboutToMark(run[m + 1], t, j)
    requires forall p :: m < p < k ==> !LosesHold(run[p], acts[p], t)
    ensures AboutToMark(run[k], t, j) || j in run[k].h.marked
    decreases k - m
  {
    hide After, Enabled, LosesHold;
    if k > m + 1 {
      MarksUnlessLost(run, acts, m, k - 1, t, j);
      assert run[k] == After(run[k - 1], acts[k - 1]);
      if j in run[k - 1].h.marked {
        RunRemembers(run, acts, k - 1, k);
      } else {
        MarkStep(run[k - 1], acts[k - 1], t, j);
      }
    }
  }

  /** If Telegram accepted a message and a send of the same job begins again later, then in between the first
      sender crashed, was cancelled or lost its lease before its mark was written. */
  lemma DoubleSendNeedsLoss(run: seq<World>, acts: seq<Act>, m: nat, k: nat, t: nat, j: Job)
    requires IsRun(run, acts) && m < k < |acts|
    requires acts[m].Advance? && acts[m].token == t && acts[m].answers.outcome == Delivered
    requires t in run[m].ops && run[m].ops[t].point == Sending && run[m].ops[t].job == j
    requires BeginsSend(run[k], acts[k], j) && j.event.recipient !in run[k].h.overlapped
    ensures exists p :: m < p <= k && LosesHold(run[p], acts[p], t)
  {
    assert run[m + 1] == After(run[m], acts[m]) && AboutToMark(run[m + 1], t, j);
    hide After, Enabled;
    if forall p :: m < p <= k ==> !LosesHold(run[p], acts[p], t) {
      MarksUnlessLost(run, acts, m, k, t, j);
      if j in run[k].h.marked {
        NeverSentAfterMark(run, acts, k, k, j);
      } else if acts[k].token != t {
        SendsAlone(run, acts, k, j, t);
      }
    }
  }

  // ---- The stage chain --------------------------------------------------------------------------------------

  /** A later stage starts only after the stage before it was marked sent. */
  lemma ChainStep(run: seq<World>, acts: seq<Act>, k: nat, j: Job)
    requires IsRun(run, acts) && k < |acts| && BeginsSend(run[k], acts[k], j) && j.step > 1
    ensures StageSent(run[k], Stage(j.event, j.step - 1))
  {
    Reachable(run, acts, k);
    assert OpOk(run[k], acts[k].token);
  }

  /** The recipient did not delete and re-register between two acceptances of the event. */
  ghost predicate OneGeneration(w: World, e: Event, g: nat) {
    forall h :: (e, h) in w.h.accepted ==> h == g
  }

  // ---- The privacy fence --------------------------------------------------------------------------------------

  lemma {:induction false} GenerationStaysNew(run: seq<World>, acts: seq<Act>, i: nat, k: nat, u: int)
    requires IsRun(run, acts) && i < k < |run| && acts[i].FenceUser? && acts[i].user == u
    ensures Generation(run[k].r, u) !in Used(run[i], u)
    decreases k - i
  {
    hide After, Enabled;
    RunStep(run, acts, k - 1);
    if k > i + 1 {
      GenerationStaysNew(run, acts, i, k - 1, u);
      RunRemembers(run, acts, i, k - 1);
    }
  }

  /** After a fence no send ever begins for a job of a generation used before, whatever happens later. */
  lemma FencedForever(run: seq<World>, acts: seq<Act>, i: nat, k: nat, j: Job)
    requires IsRun(run, acts) && i < k < |acts|
    requires acts[i].FenceUser? && acts[i].user == j.event.recipient && j.generation in Used(run[i], j.event.recipient)
    ensures !BeginsSend(run[k], acts[k], j)
  {
    GenerationStaysNew(run, acts, i, k, j.event.recipient);
  }

  /** Every job accepted so far, and the present generation, is of a generation used before. */
  lemma AcceptedAreUsed(run: seq<World>, acts: seq<Act>, i: nat, j: Job)
    requires IsRun(run, acts) && i < |run|
    requires j in run[i].h.jobs || j.generation == Generation(run[i].r, j.event.recipient)
    ensures j.generation in Used(run[i], j.event.recipient)
  {
    Reachable(run, acts, i);
    assert UserOk(run[i], j.event.recipient);
    if j in run[i].h.jobs {
      assert JobOk(run[i], j);
      assert AcceptedOk(run[i], (j.event, j.generation));
    }
  }

  lemma {:induction false} QuietSinceZero(run: seq<World>, acts: seq<Act>, i: nat, k: nat, u: int)
    requires IsRun(run, acts) && i < k < |run| && acts[i] == SeeZero(u)
    requires forall m :: i < m < k ==> acts[m] != RegisterUser(u)
    requires Orderly(run[i], u)
    ensures u in run[k].r.deleted && Outstanding(run[k], u) == {}
    decreases k - i
  {
    hide After;
    if k == i + 1 {
      ZeroSeenNow(run, acts, i, u);
    } else {
      RunStep(run, acts, k - 1);
      QuietSinceZero(run, acts, i, k - 1, u);
      assert Outstanding(run[k], u) <= Outstanding(run[k - 1], u);
    }
  }

  lemma ZeroSeenNow(run: seq<World>, acts: seq<Act>, i: nat, u: int)
    requires IsRun(run, acts) && i < |acts| && acts[i] == SeeZero(u)
    requires Orderly(run[i], u)
    ensures u in run[i + 1].r.deleted && Outstanding(run[i + 1], u) == {}
  {
    Reachable(run, acts, i + 1);
    assert run[i + 1] == After(run[i], acts[i]);
    assert UserOk(run[i + 1], u);
  }

  /** Once a deletion's wait loop has seen zero, and until the user registers again, no send to the user is
      under way within its budget and none begins. */
  lemma NothingInFlight(run: seq<World>, acts: seq<Act>, i: nat, k: nat, u: int)
    requires IsRun(run, acts) && i < k < |run| && acts[i] == SeeZero(u)
    requires forall m :: i < m < k ==> acts[m] != RegisterUser(u)
    requires Orderly(run[i], u)
    ensures forall t :: t in run[k].ops && run[k].ops[t].job.event.recipient == u && run[k].ops[t].point.Sending? ==>
              !InBudget(run[k], run[k].ops[t])
    ensures forall a, j :: BeginsSend(run[k], a, j) ==> j.event.recipient != u
  {
    QuietSinceZero(run, acts, i, k, u);
    Reachable(run, acts, k);
    var w := run[k];
    forall t | t in w.ops && w.ops[t].job.event.recipient == u && w.ops[t].point.Sending?
      ensures !InBudget(w, w.ops[t])
    {
      assert OpOk(w, t);
      assert InBudget(w, w.ops[t]) ==> t in Outstanding(w, u);
    }
  }

  /** The in-flight counter is never below the number of reservations still within its life. */
  lemma CounterCoversSends(run: seq<World>, acts: seq<Act>, i: nat, u: int)
    requires IsRun(run, acts) && i < |run| && u !in run[i].h.late
    ensures |Outstanding(run[i], u)| <= Inflight(run[i].r, u)
  {
    Reachable(run, acts, i);
    assert UserOk(run[i], u);
  }

  // ---- Lease exclusion --------------------------------------------------------------------------------------

  /** Step `a` renews the lease of stage `s` for token `t`. */
  ghost predicate Renews(w: World, a: Act, s: Stage, t: nat) {
    || (a.StartOp? && a.token == t && a.id in w.h.log && StageOf(w.h.log[a.id]) == s
          && CanRenew(w.r, a.id, s, a.consumer, t))
    || ((a.Heartbeat? || (a.Advance? && t in w.ops && w.ops[t].point.Reguard?)) && a.token == t && t in w.ops
          && StageOf(w.ops[t].job) == s && CanRenew(w.r, w.ops[t].id, s, w.ops[t].consumer, t))
  }

  ghost predicate HeldUntil(w: World, s: Stage, t: nat, until: nat) {
    s in w.r.leases && w.r.leases[s].value == t && until <= w.r.leases[s].expires
  }

  lemma {:induction false} LeaseStays(run: seq<World>, acts: seq<Act>, i: nat, k: nat, s: Stage, t: nat)
    requires IsRun(run, acts) && i < k < |run| && Renews(run[i], acts[i], s, t)
    requires run[k].r.now < run[i].r.now + LEASE_LIFE
    requires forall m :: i < m < k ==> acts[m] != ReleaseLease(s, t)
    ensures HeldUntil(run[k], s, t, run[i].r.now + LEASE_LIFE)
    decreases k - i
  {
    hide After, Enabled;
    RunStep(run, acts, k - 1);
    if k > i + 1 {
      RunRemembers(run, acts, i, k - 1);
      LeaseStays(run, acts, i, k - 1, s, t);
    }
  }

  /** Two tokens never renew one stage within a lease's life unless the first was released in between. */
  lemma LeaseExclusion(run: seq<World>, acts: seq<Act>, i: nat, k: nat, s: Stage, t: nat, other: nat)
    requires IsRun(run, acts) && i < k < |acts| && t != other
    requires Renews(run[i], acts[i], s, t) && Renews(run[k], acts[k], s, other)
    requires forall m :: i < m < k ==> acts[m] != ReleaseLease(s, t)
    ensures run[i].r.now + LEASE_LIFE <= run[k].r.now
  {
    if run[k].r.now < run[i].r.now + LEASE_LIFE {
      LeaseStays(run, acts, i, k, s, t);
    }
  }
}
