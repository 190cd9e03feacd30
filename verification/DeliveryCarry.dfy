/** Parts of the invariant that survive a step because the facts they rest on survive it. Each lemma names
    just those facts: history that only grows, generations that do not come back, markers and counters that stay
    put, entries that are neither added nor dropped. A step's own proof then has to look only at the objects the
    step touches. Nothing here mentions a particular step, so one lemma serves many of them. */
module DeliveryCarry {
  import opened DeliveryState
  import opened DeliveryRun
  import opened DeliveryInvariant

  /** What no step ever undoes. */
  ghost predicate Grows(w: World, w': World) {
    && w.r.now <= w'.r.now
    && w.h.jobs <= w'.h.jobs && w.h.sentBy <= w'.h.sentBy && w.h.tokens <= w'.h.tokens
    && w.h.marked.Keys <= w'.h.marked.Keys && w.h.closed.Keys <= w'.h.closed.Keys
    && (forall id :: id in w.h.log ==> id in w'.h.log && w'.h.log[id] == w.h.log[id])
    && (forall k :: k in w.h.accepted ==> k in w'.h.accepted && w'.h.accepted[k] == w.h.accepted[k])
    && (forall u :: Used(w, u) <= Used(w', u))
    && w.h.overlapped <= w'.h.overlapped && w.h.late <= w'.h.late
    && (forall j :: j in w.h.jobs && Counts(w', j) ==> Counts(w, j))
  }

  ghost predicate SameGenerations(w: World, w': World) {
    w'.r.generations == w.r.generations && w'.h.used == w.h.used && w.h.overlapped <= w'.h.overlapped
  }

  /** No copy of a job appears. */
  ghost predicate FewerCopies(w: World, w': World) {
    && w'.h.log == w.h.log && w'.h.accepted == w.h.accepted
    && w'.r.delayed.Keys <= w.r.delayed.Keys
    && forall id :: Live(w', id) ==> Live(w, id)
  }

  lemma StageSentGrows(w: World, w': World, s: Stage)
    requires Grows(w, w') && StageSent(w, s)
    ensures StageSent(w', s)
  {
  }

  lemma ReasonCarries(w: World, w': World, j: Job, reason: Reason)
    requires Grows(w, w') && ReasonHolds(w, j, reason) && j in w.h.jobs
    ensures ReasonHolds(w', j, reason)
  {
    if reason.AlreadySent? {
      StageSentGrows(w, w', StageOf(j));
    }
  }

  lemma ReasonsCarry(w: World, w': World)
    requires Grows(w, w') && AllReasons(w)
    requires forall j :: j in w.h.closed ==> j in w.h.jobs
    requires forall j :: j in w'.h.closed ==>
      (j in w.h.closed && w'.h.closed[j] == w.h.closed[j]) || ReasonHolds(w', j, w'.h.closed[j])
    ensures AllReasons(w')
  {
    forall j | j in w'.h.closed
      ensures ReasonHolds(w', j, w'.h.closed[j])
    {
      if j in w.h.closed && w'.h.closed[j] == w.h.closed[j] {
        assert ReasonHolds(w, j, w.h.closed[j]);
        ReasonCarries(w, w', j, w.h.closed[j]);
      }
    }
  }

  lemma SentByCarries(w: World, w': World)
    requires Grows(w, w') && AllSentBy(w)
    requires forall j :: j in w'.h.sentBy ==> j in w.h.sentBy || SentByOk(w', j)
    ensures AllSentBy(w')
  {
    forall j | j in w'.h.sentBy
      ensures SentByOk(w', j)
    {
      if j in w.h.sentBy {
        assert SentByOk(w, j);
        if j.step > 1 {
          StageSentGrows(w, w', Stage(j.event, j.step - 1));
        }
      }
    }
  }

  lemma NoCopyCarries(w: World, w': World, j: Job)
    requires FewerCopies(w, w') && NoCopy(w, j)
    ensures NoCopy(w', j)
  {
    forall id | Live(w', id)
      ensures w'.h.log[id] != j
    {
      assert Live(w, id);
    }
  }

  lemma MarkedCarries(w: World, w': World)
    requires Grows(w, w') && FewerCopies(w, w') && AllMarked(w)
    requires w'.h.marked == w.h.marked && w'.h.sentBy == w.h.sentBy
    ensures AllMarked(w')
  {
    forall j | j in w'.h.marked
      ensures MarkedOk(w', j)
    {
      assert MarkedOk(w, j);
      if Counts(w', j) && Young(w', j) {
        NoCopyCarries(w, w', j);
      }
    }
  }

  lemma OnlyCopiesCarry(w: World, w': World)
    requires Grows(w, w') && FewerCopies(w, w') && AllOnlyCopies(w)
    requires forall id :: id in w.h.log ==> w.h.log[id] in w.h.jobs
    ensures AllOnlyCopies(w')
  {
    forall id | id in w'.h.log
      ensures OnlyCopy(w', id)
    {
      assert OnlyCopy(w, id);
    }
  }

  lemma RedisMarksCarry(w: World, w': World)
    requires Grows(w, w') && AllRedisMarks(w)
    requires forall s :: s in w'.r.marks ==> (s in w.r.marks && w'.r.marks[s] == w.r.marks[s]) || RedisMarkOk(w', s)
    ensures AllRedisMarks(w')
  {
    forall s | s in w'.r.marks
      ensures RedisMarkOk(w', s)
    {
      if s in w.r.marks && w'.r.marks[s] == w.r.marks[s] && HasMark(w'.r, s, Sent) {
        assert RedisMarkOk(w, s);
        StageSentGrows(w, w', s);
      }
    }
  }

  lemma AcceptedCarries(w: World, w': World)
    requires Grows(w, w') && AllAccepted(w)
    requires w'.h.accepted == w.h.accepted && SameGenerations(w, w')
    requires w'.r.deleted <= w.r.deleted
    requires forall e :: e in w.r.enqueued ==> e in w'.r.enqueued && w.r.enqueued[e] <= w'.r.enqueued[e]
    ensures AllAccepted(w')
  {
    forall k | k in w'.h.accepted
      ensures AcceptedOk(w', k)
    {
      assert AcceptedOk(w, k);
    }
  }

  lemma JobsCarry(w: World, w': World)
    requires Grows(w, w') && AllJobs(w) && w'.h.jobs == w.h.jobs
    requires forall j :: j in w.h.jobs && NotLost(w, j) ==> NotLost(w', j)
    ensures AllJobs(w')
  {
    forall j | j in w'.h.jobs
      ensures JobOk(w', j)
    {
      assert JobOk(w, j);
    }
  }

  /** A job is not lost if each of its places survives or is exchanged for a recorded closing. */
  lemma NotLostCarries(w: World, w': World, j: Job)
    requires Grows(w, w') && NotLost(w, j)
    requires j in w.r.delayed ==> NotLost(w', j)
    requires forall id :: Live(w, id) && w.h.log[id] == j ==> Live(w', id) || j in w'.h.closed || j in w'.r.delayed
    ensures NotLost(w', j)
  {
    if j !in w.r.delayed && j !in w.h.closed {
      var id :| Live(w, id) && w.h.log[id] == j;
      assert w'.h.log[id] == j;
    }
  }

  // ---- Operations ---------------------------------------------------------------------------------

  /** The parts of the world an untouched operation depends on. */
  ghost predicate OpUndisturbed(w: World, w': World, t: nat)
    requires t in w.ops
  {
    var op := w.ops[t];
    var s := StageOf(op.job);
    && t in w'.ops && w'.ops[t] == op
    && (!op.point.EndSend? && Active(w', op) ==>
          && (s in w.r.leases ==> s in w'.r.leases && w'.r.leases[s] == w.r.leases[s])
          && (Counts(w', op.job) && op.id in w.r.pending ==> op.id in w'.r.pending))
    && (t in w.h.reservations <==> t in w'.h.reservations)
    && (t in w.h.reservations ==> w'.h.reservations[t] == w.h.reservations[t])
  }

  lemma PriorSentCarries(w: World, w': World, j: Job)
    requires Grows(w, w')
    ensures PriorSent(w, j) ==> PriorSent(w', j)
  {
    if j.step > 1 && PriorSent(w, j) {
      StageSentGrows(w, w', Stage(j.event, j.step - 1));
    }
  }

  lemma OpCarries(w: World, w': World, t: nat)
    requires Grows(w, w') && t in w.ops && OpOk(w, t) && OpUndisturbed(w, w', t)
    requires w.ops[t].job in w.h.jobs
    ensures OpOk(w', t)
  {
    var op := w.ops[t];
    assert Active(w', op) ==> Active(w, op);
    PriorSentCarries(w, w', op.job);
    if op.point.Settle? && op.point.how.Drop? {
      ReasonCarries(w, w', op.job, op.point.how.reason);
    }
  }

  // ---- Reservations and users -----------------------------------------------------------------------

  lemma {:induction false} Smaller(a: set<nat>, b: set<nat>)
    requires a <= b
    ensures |a| <= |b|
  {
    if a != {} {
      var x :| x in a;
      Smaller(a - {x}, b - {x});
    }
  }

  lemma UserCarries(w: World, w': World, u: int)
    requires w.r.now <= w'.r.now && UserOk(w, u) && AllReservations(w)
    requires w'.h.reservations == w.h.reservations && w'.r.inflight == w.r.inflight
    requires Generation(w'.r, u) == Generation(w.r, u) && Used(w, u) <= Used(w', u)
    requires w.h.overlapped <= w'.h.overlapped && w.h.late <= w'.h.late
    requires u in w'.deletions && u !in w'.h.overlapped ==> u in w.deletions && w'.deletions[u] == w.deletions[u] && u in w'.r.deleted
    ensures UserOk(w', u)
  {
    var before, after := Outstanding(w, u), Outstanding(w', u);
    assert after <= before;
    Smaller(after, before);
    if after != {} {
      var t :| t in after;
      assert ReservationOk(w, t);
    }
  }

  lemma UsersCarry(w: World, w': World)
    requires Grows(w, w') && AllUsers(w) && AllReservations(w)
    requires w'.h.reservations == w.h.reservations && w'.r.inflight == w.r.inflight
    requires w'.r.generations == w.r.generations
    requires forall u :: u in w'.deletions && u !in w'.h.overlapped ==>
               u in w.deletions && w'.deletions[u] == w.deletions[u] && u in w'.r.deleted
    ensures AllUsers(w') && AllReservations(w')
  {
    forall t | t in w'.h.reservations
      ensures ReservationOk(w', t)
    {
      assert ReservationOk(w, t);
    }
    forall u
      ensures UserOk(w', u)
    {
      assert UserOk(w, u);
      UserCarries(w, w', u);
    }
  }
}
