/** Every step that leaves the recipients' registration alone keeps the invariant: the clock, lost retry
    counters, reads, claims, trimming, starting, renewing and abandoning an operation, looking at the keys, counting
    a failure, and what a deletion removes. A step is split into the objects it touches, which are examined here, and
    the rest, which `DeliveryCarry` carries over. `OrdinaryStep` puts the two together for steps that keep the
    recipients' own keys. */
module DeliveryProofs {
  import opened DeliveryState
  import opened DeliveryRun
  import opened DeliveryInvariant
  import opened DeliveryCarry

  lemma InitialInv(w: World)
    requires Initial(w)
    ensures Inv(w)
  {
    forall u
      ensures UserOk(w, u)
    {
      assert Outstanding(w, u) == {};
    }
  }

  /** The entries' jobs are known jobs. */
  lemma LogJobs(w: World)
    requires AllEntries(w)
    ensures forall id :: id in w.h.log ==> w.h.log[id] in w.h.jobs
  {
    forall id | id in w.h.log
      ensures w.h.log[id] in w.h.jobs
    {
      assert EntryOk(w, id);
    }
  }

  lemma OpJob(w: World, t: nat)
    requires AllEntries(w) && AllOps(w) && t in w.ops
    ensures OpOk(w, t) && w.ops[t].job in w.h.jobs
  {
    assert OpOk(w, t);
    assert EntryOk(w, w.ops[t].id);
  }

  /** Steps that write no stage mark, accept nothing and open no generation. */
  ghost predicate Ordinary(w: World, w': World) {
    && Grows(w, w') && FewerCopies(w, w')
    && w'.h.jobs == w.h.jobs && w'.h.marked == w.h.marked && w'.h.sentBy == w.h.sentBy
    && (forall s :: s in w'.r.marks ==> s in w.r.marks && w'.r.marks[s] == w.r.marks[s])
  }

  lemma OrdinaryStep(w: World, w': World)
    requires Inv(w) && Ordinary(w, w') && StreamOk(w') && AllEntries(w')
    requires forall j :: j in w.h.jobs && NotLost(w, j) ==> NotLost(w', j)
    requires forall j :: j in w'.h.closed ==>
      (j in w.h.closed && w'.h.closed[j] == w.h.closed[j]) || ReasonHolds(w', j, w'.h.closed[j])
    requires forall t :: t in w'.ops ==> OpOk(w', t) || (t in w.ops && OpUndisturbed(w, w', t))
    requires AllAccepted(w') && AllUsers(w') && AllReservations(w')
    ensures Inv(w')
  {
    LogJobs(w);
    JobsCarry(w, w');
    OnlyCopiesCarry(w, w');
    MarkedCarries(w, w');
    SentByCarries(w, w');
    RedisMarksCarry(w, w');
    ReasonsCarry(w, w');
    forall t | t in w'.ops
      ensures OpOk(w', t)
    {
      if !OpOk(w', t) {
        OpJob(w, t);
        OpCarries(w, w', t);
      }
    }
  }

  /** Steps that leave the clock, the queue, the marks and the generations alone. */
  ghost predicate SameQueue(w: World, w': World) {
    && w'.h.jobs == w.h.jobs && w'.h.log == w.h.log && w'.h.accepted == w.h.accepted && w'.h.closed == w.h.closed
    && w'.h.marked == w.h.marked && w'.h.sentBy == w.h.sentBy && w.h.tokens <= w'.h.tokens && w'.h.used == w.h.used
    && w.h.overlapped <= w'.h.overlapped && w.h.late <= w'.h.late
    && w'.r.now == w.r.now && w'.r.entries == w.r.entries && w'.r.lastId == w.r.lastId && w'.r.cursor == w.r.cursor
    && w'.r.pending.Keys == w.r.pending.Keys && w'.r.delayed == w.r.delayed
    && w'.r.marks == w.r.marks && w'.r.generations == w.r.generations
  }

  /** Steps that also leave the users and the acceptance markers alone. */
  ghost predicate Elsewhere(w: World, w': World) {
    && SameQueue(w, w') && w'.h.reservations == w.h.reservations && w'.r.enqueued == w.r.enqueued
    && w'.r.deleted == w.r.deleted && w'.r.inflight == w.r.inflight && w'.deletions == w.deletions
  }

  ghost predicate LeaseKept(w: World, w': World, t: nat)
    requires t in w.ops
  {
    var s := StageOf(w.ops[t].job);
    !w.ops[t].point.EndSend? && Active(w, w.ops[t]) && s in w.r.leases ==>
      s in w'.r.leases && w'.r.leases[s] == w.r.leases[s]
  }

  lemma ElsewhereQueue(w: World, w': World)
    requires Inv(w) && SameQueue(w, w')
    ensures Grows(w, w') && Ordinary(w, w') && SameGenerations(w, w') && StreamOk(w') && AllEntries(w')
    ensures forall j :: j in w.h.jobs && NotLost(w, j) ==> NotLost(w', j)
  {
    assert forall id :: Live(w', id) <==> Live(w, id);
    assert forall u :: Used(w', u) == Used(w, u);
    assert Grows(w, w');
    forall id | id in w'.h.log
      ensures EntryOk(w', id)
    {
      assert EntryOk(w, id);
    }
    forall j | j in w.h.jobs && NotLost(w, j)
      ensures NotLost(w', j)
    {
      NotLostCarries(w, w', j);
    }
  }

  lemma StepElsewhere(w: World, w': World)
    requires Inv(w) && Elsewhere(w, w')
    requires forall t :: t in w'.ops ==> OpOk(w', t) || (t in w.ops && w'.ops[t] == w.ops[t] && LeaseKept(w, w', t))
    ensures Inv(w')
  {
    ElsewhereQueue(w, w');
    AcceptedCarries(w, w');
    assert forall u :: u in w.deletions ==> UserOk(w, u);
    UsersCarry(w, w');
    forall t | t in w'.ops && !OpOk(w', t)
      ensures t in w.ops && OpUndisturbed(w, w', t)
    {
      assert LeaseKept(w, w', t);
    }
    OrdinaryStep(w, w');
  }

  // ---- Steps that touch only operations, leases, retry counters or pending owners -------------------

  lemma KeepForgetRetry(w: World, id: nat)
    requires Inv(w)
    ensures Inv(w.(r := w.r.(retries := w.r.retries - {id})))
  {
    StepElsewhere(w, w.(r := w.r.(retries := w.r.retries - {id})));
  }

  lemma KeepReleaseLease(w: World, s: Stage, token: nat)
    requires Inv(w) && token !in w.ops
    ensures Inv(w.(r := Release(w.r, s, token)))
  {
    var w' := w.(r := Release(w.r, s, token));
    forall t | t in w'.ops
      ensures LeaseKept(w, w', t)
    {
      assert OpOk(w, t);
    }
    StepElsewhere(w, w');
  }

  /** The same operation at another point, all else equal, knowing what the new point needs. */
  lemma MovedOpOk(w: World, w': World, t: nat, p: Point)
    requires Inv(w) && t in w.ops && Elsewhere(w, w') && t in w'.ops && LeaseKept(w, w', t)
    requires w'.ops[t] == w.ops[t].(point := p)
    requires PastAge(p) ==> w.ops[t].started - w.ops[t].job.event.posted <= MAX_AGE
    requires PastPrior(p) ==> PriorSent(w, w.ops[t].job)
    requires p.Settle? && p.how.Drop? ==> ReasonHolds(w, w.ops[t].job, p.how.reason)
    requires Reserves(p) ==> w.ops[t].reserved
    requires w.ops[t].reserved ==> MayReserve(p)
    requires w.ops[t].point.EndSend? ==> p.EndSend?
    ensures OpOk(w', t)
  {
    ElsewhereQueue(w, w');
    OpJob(w, t);
    PriorSentCarries(w, w', w.ops[t].job);
    if p.Settle? && p.how.Drop? {
      ReasonCarries(w, w', w.ops[t].job, p.how.reason);
    }
  }

  lemma KeepLeave(w: World, t: nat)
    requires Inv(w) && t in w.ops
    ensures Inv(Leave(w, t))
  {
    var w' := Leave(w, t);
    OpJob(w, t);
    if w.ops[t].reserved {
      MovedOpOk(w, w', t, EndSend);
    }
    StepElsewhere(w, w');
  }

  lemma KeepCrash(w: World, t: nat)
    requires Inv(w) && t in w.ops
    ensures Inv(w.(ops := w.ops - {t}))
  {
    StepElsewhere(w, w.(ops := w.ops - {t}));
  }

  /** The looking points learn what the next point needs to know. */
  lemma LookLearns(w: World, t: nat, x: Answers)
    requires Inv(w) && t in w.ops && Looks(w.ops[t].point) && Active(w, w.ops[t])
    ensures var p := Look(w.r, w.ops[t], x);
      && (PastAge(p) ==> w.ops[t].started - w.ops[t].job.event.posted <= MAX_AGE)
      && (PastPrior(p) ==> PriorSent(w, w.ops[t].job))
      && (p.Settle? && p.how.Drop? ==> ReasonHolds(w, w.ops[t].job, p.how.reason))
  {
    OpJob(w, t);
    var op := w.ops[t];
    var j := op.job;
    assert JobOk(w, j);
    assert AcceptedOk(w, (j.event, j.generation));
    if op.point.ReadOwnMark? && HasMark(w.r, StageOf(j), Sent) {
      assert RedisMarkOk(w, StageOf(j));
    }
    if op.point.ReadPrior? {
      var s := Stage(j.event, j.step - 1);
      if HasMark(w.r, s, Sent) {
        assert RedisMarkOk(w, s);
      }
    }
  }

  lemma KeepLook(w: World, t: nat, x: Answers)
    requires Inv(w) && t in w.ops && Looks(w.ops[t].point) && Active(w, w.ops[t])
    ensures Inv(AdvanceOp(w, t, x))
  {
    var w' := AdvanceOp(w, t, x);
    LookLearns(w, t, x);
    OpJob(w, t);
    MovedOpOk(w, w', t, Look(w.r, w.ops[t], x));
    StepElsewhere(w, w');
  }

  /** While an operation is active nobody else can renew its stage's lease. */
  lemma OthersLeasesKept(w: World, w': World, token: nat, id: nat, s: Stage, consumer: nat)
    requires Inv(w) && CanRenew(w.r, id, s, consumer, token)
    requires w'.r.leases == w.r.leases[s := Expiring(token, w.r.now + LEASE_LIFE)]
    ensures forall t :: t in w.ops && t != token ==> LeaseKept(w, w', t)
  {
    forall t | t in w.ops && t != token
      ensures LeaseKept(w, w', t)
    {
      assert OpOk(w, t);
    }
  }

  lemma KeepRenew(w: World, t: nat, next: Point)
    requires Inv(w) && t in w.ops
    requires next == w.ops[t].point || (next == RecheckContent && w.ops[t].point == Reguard)
    ensures Inv(RenewOp(w, t, next))
  {
    var op := w.ops[t];
    var s := StageOf(op.job);
    if CanRenew(w.r, op.id, s, op.consumer, t) {
      var w' := RenewOp(w, t, next);
      OthersLeasesKept(w, w', t, op.id, s, op.consumer);
      OpJob(w, t);
      RenewedOpOk(w, w', t, next);
      StepElsewhere(w, w');
    } else {
      KeepLeave(w, t);
    }
  }

  lemma RenewedOpOk(w: World, w': World, t: nat, next: Point)
    requires Inv(w) && t in w.ops && Elsewhere(w, w') && t in w'.ops
    requires next == w.ops[t].point || (next == RecheckContent && w.ops[t].point == Reguard)
    requires w'.ops[t] == w.ops[t].(renewed := w.r.now, point := next)
    requires w.ops[t].id in w.r.pending
    requires w'.r.leases == w.r.leases[StageOf(w.ops[t].job) := Expiring(t, w.r.now + LEASE_LIFE)]
    ensures OpOk(w', t)
  {
    ElsewhereQueue(w, w');
    OpJob(w, t);
    var j := w.ops[t].job;
    PriorSentCarries(w, w', j);
    if next.Settle? && next.how.Drop? {
      ReasonCarries(w, w', j, next.how.reason);
    }
  }

  lemma KeepStart(w: World, t: nat, id: nat, c: nat)
    requires Inv(w) && CanStart(w, t, id, c)
    ensures Inv(Started(w, t, id, c))
  {
    var w' := Started(w, t, id, c);
    assert forall k :: k in w.h.reservations ==> ReservationOk(w, k);
    OthersLeasesKept(w, w', t, id, StageOf(w.h.log[id]), c);
    assert OpOk(w', t);
    StepElsewhere(w, w');
  }

  lemma KeepCountRetry(w: World, id: nat)
    requires Inv(w)
    ensures Inv(w.(r := CountRetry(w.r, id)))
  {
    StepElsewhere(w, w.(r := CountRetry(w.r, id)));
  }

  lemma KeepGiveUp(w: World, t: nat)
    requires Inv(w) && t in w.ops && w.ops[t].point.CountFailure? && Active(w, w.ops[t])
    ensures Inv(w.(ops := w.ops[t := w.ops[t].(point := Settle(DeadLetter))]))
  {
    var w' := w.(ops := w.ops[t := w.ops[t].(point := Settle(DeadLetter))]);
    OpJob(w, t);
    MovedOpOk(w, w', t, Settle(DeadLetter));
    StepElsewhere(w, w');
  }

  lemma KeepCountFailure(w: World, t: nat, x: Answers)
    requires Inv(w) && t in w.ops && w.ops[t].point.CountFailure? && Active(w, w.ops[t])
    ensures Inv(AdvanceOp(w, t, x))
  {
    KeepCountRetry(w, w.ops[t].id);
    var w1 := w.(r := CountRetry(w.r, w.ops[t].id));
    if Attempts(w1.r, w.ops[t].id) < MAX_ATTEMPTS {
      KeepLeave(w1, t);
    } else {
      KeepGiveUp(w1, t);
    }
  }

  // ---- Steps that move the stream's cursor, drop entries or close jobs -------------------------------

  /** Time, cursor, entries, pending list, delayed set, dead marks and closings may change; copies only go. */
  ghost predicate Thins(w: World, w': World) {
    && Ordinary(w, w') && SameGenerations(w, w') && w'.h.tokens == w.h.tokens && w'.h.reservations == w.h.reservations
    && w'.h.overlapped == w.h.overlapped && w'.h.late == w.h.late && w'.ops == w.ops && w'.r.leases == w.r.leases && w'.r.inflight == w.r.inflight
    && w'.r.deleted == w.r.deleted && w'.r.enqueued == w.r.enqueued && w'.deletions == w.deletions
  }

  /** An active operation whose job can still be sent keeps its entry in the pending list. */
  ghost predicate StillPending(w: World, w': World, t: nat)
    requires t in w.ops
  {
    var op := w.ops[t];
    !op.point.EndSend? && Active(w', op) && Counts(w, op.job) && op.id in w.r.pending ==> op.id in w'.r.pending
  }

  lemma ThinningStep(w: World, w': World)
    requires Inv(w) && Thins(w, w') && StreamOk(w') && AllEntries(w')
    requires forall j :: j in w.h.jobs && NotLost(w, j) ==> NotLost(w', j)
    requires forall j :: j in w'.h.closed ==>
      (j in w.h.closed && w'.h.closed[j] == w.h.closed[j]) || ReasonHolds(w', j, w'.h.closed[j])
    requires forall t {:trigger StillPending(w, w', t)} :: t in w.ops ==> StillPending(w, w', t)
    ensures Inv(w')
  {
    AcceptedCarries(w, w');
    assert forall u :: u in w.deletions ==> UserOk(w, u);
    UsersCarry(w, w');
    forall t | t in w'.ops
      ensures OpUndisturbed(w, w', t)
    {
      assert StillPending(w, w', t);
    }
    OrdinaryStep(w, w');
  }

  lemma KeepTick(w: World, ms: nat)
    requires Inv(w)
    ensures Inv(w.(r := w.r.(now := w.r.now + ms)))
  {
    var w' := w.(r := w.r.(now := w.r.now + ms));
    assert forall id :: Live(w', id) <==> Live(w, id);
    assert forall u :: Used(w', u) == Used(w, u);
    forall id | id in w'.h.log
      ensures EntryOk(w', id)
    {
      assert EntryOk(w, id);
    }
    forall j | j in w.h.jobs && NotLost(w, j)
      ensures NotLost(w', j)
    {
      NotLostCarries(w, w', j);
    }
    ThinningStep(w, w');
  }

  lemma KeepTrim(w: World, floor: nat)
    requires Inv(w) && IsFloor(w.r, floor)
    ensures Inv(w.(r := Trim(w.r, floor)))
  {
    var w' := w.(r := Trim(w.r, floor));
    assert forall id :: Live(w', id) <==> Live(w, id);
    assert forall u :: Used(w', u) == Used(w, u);
    forall id | id in w'.h.log
      ensures EntryOk(w', id)
    {
      assert EntryOk(w, id);
    }
    forall j | j in w.h.jobs && NotLost(w, j)
      ensures NotLost(w', j)
    {
      NotLostCarries(w, w', j);
    }
    ThinningStep(w, w');
  }

  lemma KeepRead(w: World, id: nat, c: nat)
    requires Inv(w) && NextUnread(w.r, id)
    ensures Inv(w.(r := Read(w.r, id, c)))
  {
    var w' := w.(r := Read(w.r, id, c));
    assert forall k :: Live(w', k) <==> Live(w, k);
    assert forall u :: Used(w', u) == Used(w, u);
    assert EntryOk(w, id);
    forall k | k in w'.h.log
      ensures EntryOk(w', k)
    {
      assert EntryOk(w, k);
    }
    forall j | j in w.h.jobs && NotLost(w, j)
      ensures NotLost(w', j)
    {
      NotLostCarries(w, w', j);
    }
    ThinningStep(w, w');
  }

  lemma KeepClaim(w: World, id: nat, c: nat)
    requires Inv(w) && id in w.r.pending
    ensures Inv(w.(r := Claim(w.r, id, c)))
  {
    var w' := w.(r := Claim(w.r, id, c));
    if id in w.r.entries {
      assert w'.r.pending.Keys == w.r.pending.Keys;
      StepElsewhere(w, w');
    } else {
      assert EntryOk(w, id);
      OnlyAcks(w, w', id);
      AckedWorld(w, w', id);
    }
  }

  /** At most entry `id` left the pending list and the stream. */
  ghost predicate EntryGone(w: World, w': World, id: nat) {
    && (forall k :: k in w'.r.pending <==> k in w.r.pending && k != id)
    && (forall k :: k in w'.r.entries ==> k in w.r.entries && w'.r.entries[k] == w.r.entries[k])
    && (forall k :: k in w.r.entries && k != id ==> k in w'.r.entries)
  }

  /** Everything but the pending list, the entries, the retry counters and the closings is as before. */
  ghost predicate OnlyQueue(w: World, w': World) {
    && w'.ops == w.ops && w'.deletions == w.deletions && w'.h == w.h.(closed := w'.h.closed)
    && w'.r == w.r.(entries := w'.r.entries, pending := w'.r.pending, retries := w'.r.retries)
    && w.h.closed.Keys <= w'.h.closed.Keys
  }

  lemma OnlyAcks(w: World, w': World, id: nat)
    requires EntryGone(w, w', id) && OnlyQueue(w, w')
    ensures Thins(w, w')
  {
  }

  lemma AckedQueue(w: World, w': World, id: nat)
    requires StreamOk(w) && AllEntries(w) && id in w.h.log && Grows(w, w') && w'.h.log == w.h.log && w'.h.jobs == w.h.jobs
    requires w'.r.generations == w.r.generations
    requires w'.r.cursor == w.r.cursor && w'.r.lastId == w.r.lastId && w'.r.delayed == w.r.delayed
    requires EntryGone(w, w', id)
    requires w.h.log[id] in w'.h.closed && !Counts(w, w.h.log[id])
    ensures AllEntries(w')
    ensures forall j :: j in w.h.jobs && NotLost(w, j) ==> NotLost(w', j)
  {
    forall k | k in w'.h.log
      ensures EntryOk(w', k)
    {
      assert EntryOk(w, k);
    }
    forall j | j in w.h.jobs && NotLost(w, j)
      ensures NotLost(w', j)
    {
      NotLostCarries(w, w', j);
    }
  }

  /** One entry leaves the pending list or the stream, its job closed and no longer current or past its age. */
  lemma AckedWorld(w: World, w': World, id: nat)
    requires Inv(w) && id in w.h.log && Thins(w, w')
    requires StreamOk(w')
    requires w'.r.cursor == w.r.cursor && w'.r.lastId == w.r.lastId && w'.r.delayed == w.r.delayed
    requires EntryGone(w, w', id)
    requires w.h.log[id] in w'.h.closed && !Counts(w, w.h.log[id])
    requires forall j :: j in w.h.closed ==> j in w'.h.closed
    requires forall j :: j in w'.h.closed ==>
      (j in w.h.closed && w'.h.closed[j] == w.h.closed[j]) || (j in w.h.jobs && ReasonHolds(w', j, w'.h.closed[j]))
    ensures Inv(w')
  {
    AckedQueue(w, w', id);
    forall t | t in w.ops
      ensures StillPending(w, w', t)
    {
      OpJob(w, t);
    }
    ThinningStep(w, w');
  }

  /** Nothing that counts has been accepted for a deleted user. */
  lemma DeletedCountsNot(w: World, j: Job)
    requires Inv(w) && j in w.h.jobs && (j.event.recipient in w.r.deleted || j.event.recipient in w.h.overlapped)
    ensures !Counts(w, j)
  {
    assert JobOk(w, j);
    assert AcceptedOk(w, (j.event, j.generation));
  }

  lemma KeepScrubAck(w: World, id: nat)
    requires Inv(w) && CleansEntry(w, id)
    ensures Inv(ScrubAcked(w, id))
  {
    var w' := ScrubAcked(w, id);
    assert EntryOk(w, id);
    assert UserOk(w, w.h.log[id].event.recipient);
    DeletedCountsNot(w, w.h.log[id]);
    OnlyAcks(w, w', id);
    AckedWorld(w, w', id);
  }

  /** The scrub may delete an entry that a consumer has just been given: its record stays pending, its job is closed. */
  lemma KeepScrubDelete(w: World, id: nat)
    requires Inv(w) && CleansEntry(w, id)
    ensures Inv(ScrubDeleted(w, id))
  {
    var w' := ScrubDeleted(w, id);
    assert EntryOk(w, id);
    assert UserOk(w, w.h.log[id].event.recipient);
    DeletedCountsNot(w, w.h.log[id]);
    DeletedQueue(w, w', id);
    ThinningStep(w, w');
  }

  lemma DeletedThins(w: World, w': World, id: nat)
    requires Inv(w) && id in w.h.log && w' == ScrubDeleted(w, id) && w.h.log[id] in w.h.jobs
    ensures Thins(w, w') && StreamOk(w')
  {
    assert forall k :: k != id ==> (Live(w', k) <==> Live(w, k));
    assert Live(w', id) ==> Live(w, id);
    assert forall u :: Used(w', u) == Used(w, u);
  }

  lemma DeletedQueue(w: World, w': World, id: nat)
    requires Inv(w) && id in w.h.log && w' == ScrubDeleted(w, id) && !Counts(w, w.h.log[id]) && w.h.log[id] in w.h.jobs
    ensures Thins(w, w') && StreamOk(w') && AllEntries(w')
    ensures forall i :: i in w.h.jobs && NotLost(w, i) ==> NotLost(w', i)
  {
    DeletedThins(w, w', id);
    forall k | k in w'.h.log
      ensures EntryOk(w', k)
    {
      assert EntryOk(w, k);
    }
    hide Thins, StreamOk;
    forall i | i in w.h.jobs && NotLost(w, i) && i !in w'.h.closed && i !in w'.r.delayed
      ensures NotLost(w', i)
    {
      var k :| Live(w, k) && w.h.log[k] == i;
      assert Live(w', k) && w'.h.log[k] == i;
    }
  }

  lemma KeepDropDelayed(w: World, j: Job)
    requires Inv(w) && CleansJob(w, j)
    ensures Inv(DelayedDropped(w, j))
  {
    var w' := DelayedDropped(w, j);
    assert UserOk(w, j.event.recipient);
    DroppedQueue(w, w', j);
    ThinningStep(w, w');
  }

  lemma DroppedQueue(w: World, w': World, j: Job)
    requires Inv(w) && j in w.r.delayed && w' == DelayedDropped(w, j)
    ensures Thins(w, w') && StreamOk(w') && AllEntries(w')
    ensures forall i :: i in w.h.jobs && NotLost(w, i) ==> NotLost(w', i)
  {
    assert forall k :: Live(w', k) <==> Live(w, k);
    assert forall u :: Used(w', u) == Used(w, u);
    forall k | k in w'.h.log
      ensures EntryOk(w', k)
    {
      assert EntryOk(w, k);
    }
    forall i | i in w.h.jobs && NotLost(w, i)
      ensures NotLost(w', i)
    {
      NotLostCarries(w, w', i);
    }
  }

  lemma KeepDropMark(w: World, s: Stage)
    requires Inv(w)
    ensures Inv(w.(r := w.r.(marks := w.r.marks - {s})))
  {
    var w' := w.(r := w.r.(marks := w.r.marks - {s}));
    assert forall k :: Live(w', k) <==> Live(w, k);
    assert forall u :: Used(w', u) == Used(w, u);
    forall k | k in w'.h.log
      ensures EntryOk(w', k)
    {
      assert EntryOk(w, k);
    }
    forall j | j in w.h.jobs && NotLost(w, j)
      ensures NotLost(w', j)
    {
      NotLostCarries(w, w', j);
    }
    ThinningStep(w, w');
  }
}
