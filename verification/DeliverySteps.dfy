/** The remaining steps keep the invariant: deletion, fencing and registration, reservations, accepting an
    event, moving jobs from the delayed set to the stream, and settling an entry with its mark, dead letter or
    requeue. These are the steps that create or consume a job's only copy, so most of the argument is about copies:
    a step that adds a copy of a job shows that there was none, and a step that acknowledges an entry shows that the
    mark it leaves behind is justified. */
module DeliverySteps {
  import opened DeliveryState
  import opened DeliveryRun
  import opened DeliveryInvariant
  import opened DeliveryCarry
  import opened DeliveryProofs

  // ---- Users ----------------------------------------------------------------------------------------

  lemma KeepEndDeletion(w: World, u: int)
    requires Inv(w)
    ensures Inv(w.(deletions := w.deletions - {u}))
  {
    var w' := w.(deletions := w.deletions - {u});
    ElsewhereQueue(w, w');
    AcceptedCarries(w, w');
    assert forall v :: v in w.deletions ==> UserOk(w, v);
    UsersCarry(w, w');
    OrdinaryStep(w, w');
  }

  lemma KeepRegister(w: World, u: int)
    requires Inv(w)
    ensures Inv(Registered(w, u))
  {
    var w' := Registered(w, u);
    ElsewhereQueue(w, w');
    AcceptedCarries(w, w');
    assert forall v :: v in w.deletions ==> UserOk(w, v);
    UsersCarry(w, w');
    OrdinaryStep(w, w');
  }

  function ZeroSeen(w: World, u: int): World
    requires u in w.deletions
  {
    w.(deletions := w.deletions[u := Cleaning(w.deletions[u].generation)])
  }

  lemma KeepSeeZero(w: World, u: int)
    requires Inv(w) && u in w.deletions && Inflight(w.r, u) == 0
    ensures Inv(ZeroSeen(w, u))
  {
    var w' := ZeroSeen(w, u);
    ElsewhereQueue(w, w');
    AcceptedCarries(w, w');
    forall t | t in w'.h.reservations
      ensures ReservationOk(w', t)
    {
      assert ReservationOk(w, t);
    }
    forall v
      ensures UserOk(w', v)
    {
      assert UserOk(w, v) && Outstanding(w', v) == Outstanding(w, v);
    }
    OrdinaryStep(w, w');
  }

  lemma KeepDropMarker(w: World, e: Event)
    requires Inv(w) && MayClean(w, e.recipient)
    ensures Inv(w.(r := w.r.(enqueued := w.r.enqueued - {e})))
  {
    var w' := w.(r := w.r.(enqueued := w.r.enqueued - {e}));
    ElsewhereQueue(w, w');
    assert UserOk(w, e.recipient);
    forall k | k in w'.h.accepted
      ensures AcceptedOk(w', k)
    {
      assert AcceptedOk(w, k);
    }
    assert forall v :: v in w.deletions ==> UserOk(w, v);
    UsersCarry(w, w');
    OrdinaryStep(w, w');
  }

  lemma FenceQueue(w: World, w': World, u: int, g: nat)
    requires Inv(w) && g !in Used(w, u) && w' == Fenced(w, u, g)
    ensures Grows(w, w') && Ordinary(w, w') && StreamOk(w') && AllEntries(w') && AllAccepted(w')
    ensures forall j :: j in w.h.jobs && NotLost(w, j) ==> NotLost(w', j)
  {
    assert forall id :: Live(w', id) <==> Live(w, id);
    forall j | j in w.h.jobs && Counts(w', j)
      ensures Counts(w, j)
    {
      assert JobOk(w, j);
      assert AcceptedOk(w, (j.event, j.generation));
    }
    assert Grows(w, w');
    forall id | id in w'.h.log
      ensures EntryOk(w', id)
    {
      assert EntryOk(w, id);
    }
    forall k | k in w'.h.accepted
      ensures AcceptedOk(w', k)
    {
      assert AcceptedOk(w, k);
    }
    forall j | j in w.h.jobs && NotLost(w, j)
      ensures NotLost(w', j)
    {
      NotLostCarries(w, w', j);
    }
  }

  lemma KeepFence(w: World, u: int, g: nat)
    requires Inv(w) && g !in Used(w, u)
    ensures Inv(Fenced(w, u, g))
  {
    var w' := Fenced(w, u, g);
    FenceQueue(w, w', u, g);
    forall t | t in w'.h.reservations
      ensures ReservationOk(w', t)
    {
      assert ReservationOk(w, t);
    }
    forall v
      ensures UserOk(w', v)
    {
      assert UserOk(w, v) && Outstanding(w', v) == Outstanding(w, v);
    }
    OrdinaryStep(w, w');
  }

  // ---- Reservations -----------------------------------------------------------------------------------

  function Begun(w: World, t: nat): World
    requires t in w.ops
  {
    var u := w.ops[t].job.event.recipient;
    w.(r := Begin(w.r, u),
       ops := w.ops[t := w.ops[t].(point := Sending, reserved := true)],
       h := w.h.(reservations := w.h.reservations[t := Reservation(u, w.r.now)]))
  }

  lemma BegunReservations(w: World, t: nat)
    requires Inv(w) && t in w.ops && w.ops[t].point.BeginSend?
    requires Allowed(w.r, w.ops[t].job)
    ensures AllReservations(Begun(w, t))
  {
    var w' := Begun(w, t);
    assert OpOk(w, t);
    forall k | k in w'.h.reservations
      ensures ReservationOk(w', k)
    {
      if k != t { assert ReservationOk(w, k); }
    }
  }

  lemma BegunUser(w: World, w': World, t: nat, v: int)
    requires UserOk(w, v) && t in w.ops && t !in w.h.reservations && w' == Begun(w, t) && Allowed(w.r, w.ops[t].job)
    ensures UserOk(w', v)
  {
    if v == w.ops[t].job.event.recipient {
      assert Outstanding(w', v) == Outstanding(w, v) + {t};
    } else {
      assert Outstanding(w', v) == Outstanding(w, v);
    }
  }

  lemma BeginCounts(w: World, t: nat)
    requires Inv(w) && t in w.ops && w.ops[t].point.BeginSend? && Allowed(w.r, w.ops[t].job)
    ensures AllUsers(Begun(w, t)) && AllReservations(Begun(w, t))
  {
    BegunReservations(w, t);
    assert OpOk(w, t);
    forall v
      ensures UserOk(Begun(w, t), v)
    {
      assert UserOk(w, v);
      BegunUser(w, Begun(w, t), t, v);
    }
  }

  lemma BegunOpOk(w: World, t: nat)
    requires Inv(w) && t in w.ops && w.ops[t].point.BeginSend? && Allowed(w.r, w.ops[t].job)
    ensures OpOk(Begun(w, t), t)
  {
    var w' := Begun(w, t);
    ElsewhereQueue(w, w');
    OpJob(w, t);
    PriorSentCarries(w, w', w.ops[t].job);
  }

  lemma KeepBegin(w: World, t: nat)
    requires Inv(w) && t in w.ops && w.ops[t].point.BeginSend? && Allowed(w.r, w.ops[t].job)
    ensures Inv(Begun(w, t))
  {
    var w' := Begun(w, t);
    BeginCounts(w, t);
    ElsewhereQueue(w, w');
    AcceptedCarries(w, w');
    BegunOpOk(w, t);
    hide OpOk, PriorSent, AllUsers, AllReservations, AllAccepted;
    OrdinaryStep(w, w');
  }

  lemma EndedOutstanding(w: World, w': World, t: nat, v: int)
    requires t in w.h.reservations && w.r.now < w.h.reservations[t].begun + INFLIGHT_LIFE
    requires w'.h.reservations == w.h.reservations - {t} && w'.r.now == w.r.now
    ensures v == w.h.reservations[t].user ==> t in Outstanding(w, v)
    ensures Outstanding(w', v) == Outstanding(w, v) - {t}
    ensures v != w.h.reservations[t].user ==> Outstanding(w', v) == Outstanding(w, v)
  {
  }

  lemma EndedUser(w: World, w': World, t: nat, v: int)
    requires UserOk(w, v) && t in w.ops && w' == Ended(w, t) && t in w.h.reservations
    requires w.h.reservations[t].user == w.ops[t].job.event.recipient && w.r.now < w.h.reservations[t].begun + INFLIGHT_LIFE
    ensures UserOk(w', v)
    ensures v !in w.h.late && v == w.ops[t].job.event.recipient && Inflight(w.r, v) <= 1 ==> Outstanding(w', v) == {}
  {
    assert w'.r.now == w.r.now && w'.r.deleted == w.r.deleted;
    hide End, Inflight, Generation, Outstanding;
    var u := w.ops[t].job.event.recipient;
    EndedOutstanding(w, w', t, v);
    EndKeeps(w.r, u, v);
    if v != u {
      EndElsewhere(w.r, u, v);
    } else {
      assert |Outstanding(w', v)| == |Outstanding(w, v)| - 1;
      if Inflight(w.r, u) <= 1 {
        EndClears(w.r, u);
      } else {
        EndLowers(w.r, u);
      }
    }
  }

  /** A reservation given back after its life was no longer outstanding; for its user the counter tells nothing more. */
  lemma EndedLate(w: World, w': World, t: nat, v: int)
    requires UserOk(w, v) && t in w.ops && w' == Ended(w, t) && t in w.h.reservations
    requires w.h.reservations[t].begun + INFLIGHT_LIFE <= w.r.now
    ensures UserOk(w', v)
  {
    var u := w.ops[t].job.event.recipient;
    assert Outstanding(w', v) == Outstanding(w, v) && w'.r.now == w.r.now && w'.r.deleted == w.r.deleted;
    hide End, Inflight, Generation, Outstanding;
    EndKeeps(w.r, u, v);
    if v != u {
      EndElsewhere(w.r, u, v);
    }
  }

  lemma EndedReservations(w: World, w': World, t: nat, u: int)
    requires AllReservations(w) && t in w.ops && w' == Ended(w, t) && u == w.ops[t].job.event.recipient
    requires u !in w'.h.late && Inflight(w.r, u) <= 1 ==> Outstanding(w', u) == {}
    ensures AllReservations(w')
  {
    forall k | k in w'.h.reservations
      ensures ReservationOk(w', k)
    {
      assert ReservationOk(w, k);
      assert w.h.reservations[k].user == u && w.r.now < w.h.reservations[k].begun + INFLIGHT_LIFE ==> k in Outstanding(w', u);
    }
  }

  lemma EndCounts(w: World, t: nat)
    requires Inv(w) && t in w.ops && w.ops[t].point.EndSend?
    ensures AllUsers(Ended(w, t)) && AllReservations(Ended(w, t))
  {
    var w' := Ended(w, t);
    var u := w.ops[t].job.event.recipient;
    assert OpOk(w, t);
    forall v
      ensures UserOk(w', v)
      ensures v == u && u !in w'.h.late && Inflight(w.r, u) <= 1 ==> Outstanding(w', u) == {}
    {
      assert UserOk(w, v);
      if w.r.now < w.h.reservations[t].begun + INFLIGHT_LIFE {
        EndedUser(w, w', t, v);
      } else {
        EndedLate(w, w', t, v);
      }
    }
    assert UserOk(w', u);
    EndedReservations(w, w', t, u);
  }

  lemma KeepEnd(w: World, t: nat)
    requires Inv(w) && t in w.ops && w.ops[t].point.EndSend?
    ensures Inv(Ended(w, t))
  {
    var w' := Ended(w, t);
    EndCounts(w, t);
    ElsewhereQueue(w, w');
    AcceptedCarries(w, w');
    OrdinaryStep(w, w');
  }

  // ---- Settling an entry ------------------------------------------------------------------------------

  /** No operation still holds the lease of stage `s`. */
  ghost predicate NobodyOn(w: World, s: Stage) {
    forall t :: t in w.ops && !w.ops[t].point.EndSend? && Active(w, w.ops[t]) ==> StageOf(w.ops[t].job) != s
  }

  /** Mutual exclusion: an active operation is alone on its stage. */
  lemma AloneOnStage(w: World, t: nat)
    requires Inv(w) && t in w.ops && !w.ops[t].point.EndSend? && Active(w, w.ops[t])
    ensures forall k :: k in w.ops && k != t && !w.ops[k].point.EndSend? && Active(w, w.ops[k]) ==>
              StageOf(w.ops[k].job) != StageOf(w.ops[t].job)
    ensures NobodyOn(Leave(w, t), StageOf(w.ops[t].job))
  {
    assert OpOk(w, t);
    forall k | k in w.ops && k != t && !w.ops[k].point.EndSend? && Active(w, w.ops[k])
      ensures StageOf(w.ops[k].job) != StageOf(w.ops[t].job)
    {
      assert OpOk(w, k);
    }
  }

  /** The entry an operation is about to settle, seen after the operation has left. */
  ghost predicate Settles(w: World, id: nat, j: Job) {
    && id in w.h.log && w.h.log[id] == j && j in w.h.jobs
    && NobodyOn(w, StageOf(j))
    && (Counts(w, j) ==> id in w.r.pending)
  }

  lemma SettlesAfterLeaving(w: World, t: nat)
    requires Inv(w) && t in w.ops && !w.ops[t].point.EndSend? && Active(w, w.ops[t])
    ensures Inv(Leave(w, t)) && Settles(Leave(w, t), w.ops[t].id, w.ops[t].job)
  {
    KeepLeave(w, t);
    AloneOnStage(w, t);
    OpJob(w, t);
  }

  lemma OthersStillPending(w: World, w': World, id: nat, j: Job)
    requires Inv(w) && Settles(w, id, j) && w'.r.now == w.r.now
    requires forall k :: k in w.r.pending && k != id ==> k in w'.r.pending
    ensures forall t {:trigger StillPending(w, w', t)} :: t in w.ops ==> StillPending(w, w', t)
  {
    forall t | t in w.ops
      ensures StillPending(w, w', t)
    {
      OpJob(w, t);
    }
  }

  /** Acknowledging an entry whose job has been given a reason leaves no copy of it behind. */
  lemma AckLeavesNoCopy(w: World, w': World, id: nat, j: Job)
    requires Inv(w) && Settles(w, id, j) && FewerCopies(w, w') && id !in w'.r.pending && w'.r.cursor == w.r.cursor
    requires Counts(w, j) && Young(w, j)
    ensures NoCopy(w', j) && j !in w.h.marked
  {
    assert EntryOk(w, id) && OnlyCopy(w, id) && Live(w, id);
    assert !Live(w', id);
    if j in w.h.marked {
      MarkedFact(w, j);
    }
  }

  lemma SentByMarked(w: World)
    requires AllSentBy(w)
    ensures forall j :: j in w.h.sentBy ==> j in w.h.marked
  {
    forall j | j in w.h.sentBy
      ensures j in w.h.marked
    {
      assert SentByOk(w, j);
    }
  }

  lemma MarkedFact(w: World, j: Job)
    requires AllMarked(w) && j in w.h.marked
    ensures MarkedOk(w, j)
  {
  }

  /** What an acknowledgement changes in the queue. */
  ghost predicate Acked(w: World, w': World, id: nat, j: Job) {
    && w'.ops == w.ops && w'.deletions == w.deletions
    && w'.r == Ack(w.r, id).(marks := w'.r.marks, retries := w'.r.retries, deadLetters := w'.r.deadLetters)
    && w'.h == w.h.(closed := w'.h.closed, marked := w'.h.marked, sentBy := w'.h.sentBy)
    && j in w'.h.closed && w'.h.closed == w.h.closed[j := w'.h.closed[j]]
    && w.h.sentBy <= w'.h.sentBy && w.h.marked.Keys <= w'.h.marked.Keys
  }

  lemma AckedKeepsQueue(w: World, w': World, id: nat, j: Job)
    requires Inv(w) && Settles(w, id, j) && Acked(w, w', id, j)
    ensures Grows(w, w') && FewerCopies(w, w') && StreamOk(w') && AllEntries(w')
    ensures AllJobs(w') && AllOnlyCopies(w')
  {
    assert forall k :: Live(w', k) ==> Live(w, k);
    assert forall k :: Live(w, k) && k != id ==> Live(w', k);
    assert forall u :: Used(w', u) == Used(w, u);
    forall k | k in w'.h.log
      ensures EntryOk(w', k)
    {
      assert EntryOk(w, k);
    }
    LogJobs(w);
    OnlyCopiesCarry(w, w');
    forall i | i in w.h.jobs && NotLost(w, i)
      ensures NotLost(w', i)
    {
      NotLostCarries(w, w', i);
    }
    JobsCarry(w, w');
  }

  lemma AckedKeepsRest(w: World, w': World, id: nat, j: Job)
    requires Inv(w) && Settles(w, id, j) && Acked(w, w', id, j) && Grows(w, w')
    ensures AllAccepted(w') && AllUsers(w') && AllReservations(w') && AllOps(w')
  {
    AcceptedCarries(w, w');
    assert forall u :: u in w.deletions ==> UserOk(w, u);
    UsersCarry(w, w');
    OthersStillPending(w, w', id, j);
    forall t | t in w'.ops
      ensures OpOk(w', t)
    {
      OpJob(w, t);
      assert StillPending(w, w', t);
      OpCarries(w, w', t);
    }
  }

  lemma KeepDropEntry(w: World, id: nat, j: Job, reason: Reason)
    requires Inv(w) && Settles(w, id, j) && ReasonHolds(w, j, reason)
    ensures Inv(Close(w.(r := Ack(w.r, id)), j, reason))
  {
    var w' := Close(w.(r := Ack(w.r, id)), j, reason);
    AckedKeepsQueue(w, w', id, j);
    AckedKeepsRest(w, w', id, j);
    MarkedCarries(w, w');
    SentByCarries(w, w');
    RedisMarksCarry(w, w');
    ReasonCarries(w, w', j, reason);
    ReasonsCarry(w, w');
  }

  /** Writing the stage's mark together with the acknowledgement. */
  ghost predicate MarkWritten(w: World, w': World, id: nat, j: Job, m: Mark) {
    && Acked(w, w', id, j)
    && w'.r.marks == w.r.marks[StageOf(j) := Expiring(m, w.r.now + MARK_LIFE)]
    && w'.h.closed[j] == Finished(m) && w'.h.marked == w.h.marked[j := m]
    && w'.h.sentBy == if m == Sent then w.h.sentBy + {j} else w.h.sentBy
  }

  lemma MarksAfterWriting(w: World, w': World, id: nat, j: Job, m: Mark)
    requires Inv(w) && Settles(w, id, j) && MarkWritten(w, w', id, j, m)
    requires Grows(w, w') && FewerCopies(w, w')
    requires Counts(w, j) ==> Young(w, j)
    requires m == Sent ==> PriorSent(w, j)
    ensures AllMarked(w') && AllSentBy(w') && AllRedisMarks(w')
  {
    forall i | i in w'.h.marked
      ensures MarkedOk(w', i)
    {
      if i == j {
        if Counts(w, j) {
          AckLeavesNoCopy(w, w', id, j);
          SentByMarked(w);
        }
      } else {
        assert MarkedOk(w, i);
        if Counts(w', i) && Young(w', i) {
          NoCopyCarries(w, w', i);
        }
      }
    }
    PriorSentCarries(w, w', j);
    SentByCarries(w, w');
    if m == Sent {
      assert Job(StageOf(j).event, StageOf(j).step, j.generation) in w'.h.sentBy;
    }
    RedisMarksCarry(w, w');
  }

  lemma KeepMarkEntry(w: World, w': World, id: nat, j: Job, m: Mark)
    requires Inv(w) && Settles(w, id, j) && MarkWritten(w, w', id, j, m)
    requires Counts(w, j) ==> Young(w, j)
    requires m == Sent ==> PriorSent(w, j)
    ensures Inv(w')
  {
    AckedKeepsQueue(w, w', id, j);
    AckedKeepsRest(w, w', id, j);
    MarksAfterWriting(w, w', id, j, m);
    ReasonsCarry(w, w');
  }

  /** Only the queue and the closings changed. */
  ghost predicate OnlyQueueMoved(w: World, w': World) {
    && w'.ops == w.ops && w'.deletions == w.deletions
    && w'.h.marked == w.h.marked && w'.h.sentBy == w.h.sentBy && w'.h.accepted == w.h.accepted
    && w'.h.tokens == w.h.tokens && w'.h.reservations == w.h.reservations && w'.h.used == w.h.used
    && w'.h.overlapped == w.h.overlapped && w'.h.late == w.h.late && w'.r.now == w.r.now && w'.r.marks == w.r.marks && w'.r.enqueued == w.r.enqueued && w'.r.deleted == w.r.deleted
    && w'.r.generations == w.r.generations && w'.r.inflight == w.r.inflight && w'.r.leases == w.r.leases
  }

  lemma RestCarries(w: World, w': World)
    requires Inv(w) && Grows(w, w') && OnlyQueueMoved(w, w')
    requires forall t {:trigger StillPending(w, w', t)} :: t in w.ops ==> StillPending(w, w', t)
    ensures AllSentBy(w') && AllRedisMarks(w') && AllAccepted(w') && AllUsers(w') && AllReservations(w') && AllOps(w')
  {
    SentByCarries(w, w');
    RedisMarksCarry(w, w');
    AcceptedCarries(w, w');
    assert forall u :: u in w.deletions ==> UserOk(w, u);
    UsersCarry(w, w');
    forall t | t in w'.ops
      ensures OpOk(w', t)
    {
      OpJob(w, t);
      assert StillPending(w, w', t);
      OpCarries(w, w', t);
    }
  }

  lemma NextUnused(w: World)
    requires AllEntries(w)
    ensures w.r.lastId + 1 !in w.h.log
  {
    assert w.r.lastId + 1 in w.h.log ==> EntryOk(w, w.r.lastId + 1);
  }

  // ---- Requeueing a stage whose predecessor is not decided yet -------------------------------------------

  lemma PutBackCopies(w: World, w': World, id: nat, j: Job)
    requires Inv(w) && Settles(w, id, j) && w' == w.(r := Requeue(w.r, id, j))
    ensures AllOnlyCopies(w') && AllMarked(w')
  {
    assert forall k :: Live(w', k) ==> Live(w, k);
    assert EntryOk(w, id) && OnlyCopy(w, id);
    forall i | i in w'.h.log
      ensures OnlyCopy(w', i)
    {
      assert OnlyCopy(w, i);
    }
    forall i | i in w'.h.marked
      ensures MarkedOk(w', i)
    {
      assert MarkedOk(w, i);
      assert i == j && Counts(w, j) ==> Live(w, id);
    }
  }

  lemma PutBackQueue(w: World, w': World, id: nat, j: Job)
    requires Inv(w) && Settles(w, id, j) && w' == w.(r := Requeue(w.r, id, j))
    ensures Grows(w, w') && StreamOk(w') && AllEntries(w') && AllJobs(w')
  {
    assert forall k :: Live(w, k) && k != id ==> Live(w', k);
    assert forall u :: Used(w', u) == Used(w, u);
    forall k | k in w'.h.log
      ensures EntryOk(w', k)
    {
      assert EntryOk(w, k);
    }
    forall i | i in w.h.jobs && NotLost(w, i)
      ensures NotLost(w', i)
    {
      NotLostCarries(w, w', i);
    }
    JobsCarry(w, w');
  }

  lemma KeepPutBack(w: World, id: nat, j: Job)
    requires Inv(w) && Settles(w, id, j)
    ensures Inv(w.(r := Requeue(w.r, id, j)))
  {
    var w' := w.(r := Requeue(w.r, id, j));
    PutBackCopies(w, w', id, j);
    PutBackQueue(w, w', id, j);
    OthersStillPending(w, w', id, j);
    RestCarries(w, w');
    ReasonsCarry(w, w');
  }

  // ---- Transfer of one due member to the stream ---------------------------------------------------------

  /** One new stream entry for job `j`; the closings, the cursor and the generations are as before. */
  ghost predicate Appended(w: World, w': World, j: Job) {
    var next := w.r.lastId + 1;
    && w'.r.lastId == next && w'.r.entries == w.r.entries[next := j] && w'.h.log == w.h.log[next := j]
    && w'.r.now == w.r.now && w'.r.cursor == w.r.cursor && w'.r.pending == w.r.pending
    && w'.r.generations == w.r.generations && w'.h.used == w.h.used
    && w'.h.overlapped == w.h.overlapped && w'.h.late == w.h.late
    && w'.h.closed == w.h.closed && w'.h.marked == w.h.marked && w'.h.sentBy == w.h.sentBy && w'.h.tokens == w.h.tokens
    && w.h.jobs <= w'.h.jobs && j in w'.h.jobs
    && (forall k :: k in w.h.accepted ==> k in w'.h.accepted && w'.h.accepted[k] == w.h.accepted[k])
  }

  lemma AppendedQueue(w: World, w': World, j: Job)
    requires StreamOk(w) && AllEntries(w) && Appended(w, w', j)
    requires forall i :: i in w'.r.delayed ==> i in w'.h.jobs
    ensures Grows(w, w') && StreamOk(w') && AllEntries(w')
    ensures w.r.lastId + 1 !in w.h.log && Live(w', w.r.lastId + 1)
    ensures forall k :: Live(w', k) <==> Live(w, k) || k == w.r.lastId + 1
  {
    NextUnused(w);
    assert forall u :: Used(w', u) == Used(w, u);
    forall k | k in w'.h.log
      ensures EntryOk(w', k)
    {
      if k in w.h.log { assert EntryOk(w, k); }
    }
  }

  lemma PopCopies(w: World, w': World, j: Job)
    requires Inv(w) && j in w.r.delayed && Appended(w, w', j) && w'.h.accepted == w.h.accepted
    requires forall i :: i in w'.r.delayed <==> i in w.r.delayed && i != j
    ensures AllOnlyCopies(w') && AllMarked(w')
  {
    var next := w.r.lastId + 1;
    NextUnused(w);
    assert forall k :: Live(w', k) <==> Live(w, k) || k == next;
    forall i | i in w'.h.log
      ensures OnlyCopy(w', i)
    {
      if i == next {
        forall k | Live(w', k) && w'.h.log[k] == j && Counts(w', j) && Young(w', j)
          ensures k == next
        {
          assert k != next ==> OnlyCopy(w, k);
        }
      } else {
        assert OnlyCopy(w, i);
      }
    }
    forall i | i in w'.h.marked
      ensures MarkedOk(w', i)
    {
      assert MarkedOk(w, i);
    }
  }

  lemma MovedQueue(w: World, w': World, j: Job)
    requires Inv(w) && j in w.r.delayed && Allowed(w.r, j) && w' == PopOneJob(w, j)
    ensures Appended(w, w', j) && Grows(w, w') && StreamOk(w') && AllEntries(w')
    ensures forall i :: i in w'.r.delayed <==> i in w.r.delayed && i != j
  {
    AppendedQueue(w, w', j);
  }

  /** Transfer keeps the job: it is in the stream, or closed because its recipient was fenced. */
  lemma PopKeepsJobs(w: World, w': World, j: Job)
    requires Inv(w) && Grows(w, w') && w'.h.jobs == w.h.jobs && NotLost(w', j)
    requires forall k :: Live(w, k) ==> Live(w', k)
    requires forall i :: i in w.r.delayed && i != j ==> i in w'.r.delayed
    ensures AllJobs(w')
  {
    forall i | i in w.h.jobs && NotLost(w, i)
      ensures NotLost(w', i)
    {
      if i != j { NotLostCarries(w, w', i); }
    }
    JobsCarry(w, w');
  }

  lemma KeepPopAllowed(w: World, j: Job)
    requires Inv(w) && j in w.r.delayed && Allowed(w.r, j)
    ensures Inv(PopOneJob(w, j))
  {
    var w' := PopOneJob(w, j);
    MovedQueue(w, w', j);
    AppendedQueue(w, w', j);
    PopKeepsJobs(w, w', j);
    PopCopies(w, w', j);
    RestCarries(w, w');
    ReasonsCarry(w, w');
  }

  lemma KeepPopFenced(w: World, j: Job)
    requires Inv(w) && j in w.r.delayed && !Allowed(w.r, j)
    ensures Inv(PopOneJob(w, j))
  {
    var w' := PopOneJob(w, j);
    if Counts(w, j) {
      DeletedCountsNot(w, j);
    }
    DroppedQueue(w, w', j);
    ThinningStep(w, w');
  }

  lemma {:induction false} KeepPop(w: World, due: seq<Job>)
    requires Inv(w) && forall i :: 0 <= i < |due| ==> due[i] in w.r.delayed
    requires forall i, k :: 0 <= i < k < |due| ==> due[i] != due[k]
    ensures Inv(PopJobs(w, due))
    decreases |due|
  {
    if due != [] {
      if Allowed(w.r, due[0]) {
        KeepPopAllowed(w, due[0]);
      } else {
        KeepPopFenced(w, due[0]);
      }
      OthersStayDelayed(w, due);
      KeepPop(PopOneJob(w, due[0]), due[1..]);
    }
  }

  lemma OthersStayDelayed(w: World, due: seq<Job>)
    requires due != [] && forall i :: 0 <= i < |due| ==> due[i] in w.r.delayed
    requires forall i, k :: 0 <= i < k < |due| ==> due[i] != due[k]
    ensures forall i :: 0 <= i < |due[1..]| ==> due[1..][i] in PopOneJob(w, due[0]).r.delayed
  {
  }

  // ---- Acceptance of an event -----------------------------------------------------------------------------

  ghost predicate Accepts(w: World, e: Event, g: nat) {
    Enqueues(w.r, e, g) && e.posted <= w.r.now + CLOCK_SKEW
  }

  /** Had the event been accepted for this generation within a marker's life, its marker would stand in the way. */
  lemma NotYoung(w: World, e: Event, g: nat)
    requires Inv(w) && Accepts(w, e, g) && e.recipient !in w.h.overlapped
    ensures (e, g) in w.h.accepted ==> w.h.accepted[(e, g)] + REPLAY_HORIZON <= w.r.now
  {
    if (e, g) in w.h.accepted {
      assert AcceptedOk(w, (e, g));
    }
  }

  /** No old job is one of the new ones and still young. */
  lemma OldJobsElsewhere(w: World, w': World, e: Event, g: nat, j: Job)
    requires Inv(w) && Accepts(w, e, g) && j in w.h.jobs && w'.r.now == w.r.now
    requires (e, g) in w.h.accepted ==> w'.h.accepted == w.h.accepted
    requires Young(w', j) && j.event.recipient !in w.h.overlapped
    ensures j.event != e || j.generation != g
  {
    if j.event == e {
      NotYoung(w, e, g);
    }
    assert JobOk(w, j);
  }

  /** What acceptance adds to the queue. */
  ghost predicate Acceptance(w: World, w': World, e: Event, g: nat) {
    && Appended(w, w', Job(e, 1, g))
    && (forall j :: j in w.r.delayed ==> j in w'.r.delayed)
    && (forall j :: j in w'.r.delayed && j !in w.r.delayed ==>
          j.event == e && j.generation == g && 2 <= j.step <= 3 && j in w'.h.jobs)
    && (forall j :: j in w'.h.jobs && j !in w.h.jobs ==>
          j.event == e && j.generation == g && (j.step == 1 || (2 <= j.step <= 3 && j in w'.r.delayed)))
    && (e, g) in w'.h.accepted
    && (forall k :: k in w'.h.accepted ==> k in w.h.accepted || k == (e, g))
    && ((e, g) in w.h.accepted ==> w'.h.accepted == w.h.accepted)
  }

  lemma AcceptanceAppends(w: World, e: Event, g: nat, stale: bool, clock: int)
    requires Accepts(w, e, g)
    ensures Appended(w, Accept(w, e, g, stale, clock), Job(e, 1, g))
  {
  }

  lemma AcceptanceShape(w: World, e: Event, g: nat, stale: bool, clock: int)
    requires Accepts(w, e, g)
    ensures Acceptance(w, Accept(w, e, g, stale, clock), e, g)
  {
    var w' := Accept(w, e, g, stale, clock);
    AcceptanceAppends(w, e, g, stale, clock);
    if stale {
      assert w'.r.delayed == w.r.delayed && w'.h.jobs == w.h.jobs + {Job(e, 1, g)};
    } else {
      assert w'.r.delayed.Keys == w.r.delayed.Keys + {Job(e, 2, g), Job(e, 3, g)};
      assert w'.h.jobs == w.h.jobs + {Job(e, 1, g), Job(e, 2, g), Job(e, 3, g)};
    }
  }

  lemma AcceptJobs(w: World, w': World, e: Event, g: nat)
    requires Inv(w) && Acceptance(w, w', e, g)
    ensures Grows(w, w') && StreamOk(w') && AllEntries(w') && AllJobs(w')
  {
    AppendedQueue(w, w', Job(e, 1, g));
    forall j | j in w'.h.jobs
      ensures JobOk(w', j)
    {
      if j in w.h.jobs {
        assert JobOk(w, j);
        NotLostCarries(w, w', j);
      } else if j.step == 1 {
        assert w'.h.log[w.r.lastId + 1] == j;
      }
    }
  }

  lemma AcceptCopies(w: World, w': World, e: Event, g: nat)
    requires Inv(w) && Accepts(w, e, g) && Acceptance(w, w', e, g)
    ensures AllOnlyCopies(w')
  {
    AppendedQueue(w, w', Job(e, 1, g));
    LogJobs(w);
    forall i | i in w'.h.log
      ensures OnlyCopy(w', i)
    {
      if Counts(w', w'.h.log[i]) && Young(w', w'.h.log[i]) {
        if i == w.r.lastId + 1 {
          NewestIsOnly(w, w', e, g, i);
        } else {
          OldJobsElsewhere(w, w', e, g, w.h.log[i]);
          assert OnlyCopy(w, i);
        }
      }
    }
  }

  lemma NewestIsOnly(w: World, w': World, e: Event, g: nat, i: nat)
    requires Inv(w) && Accepts(w, e, g) && Acceptance(w, w', e, g) && i == w.r.lastId + 1 && Young(w', Job(e, 1, g))
    requires e.recipient !in w.h.overlapped
    requires forall k :: Live(w', k) <==> Live(w, k) || k == i
    ensures OnlyCopy(w', i)
  {
    LogJobs(w);
    NotYetAJob(w, w', e, g);
    hide Inv, Accepts, Live, Young;
  }

  lemma NotYetAJob(w: World, w': World, e: Event, g: nat)
    requires Inv(w) && Accepts(w, e, g) && Acceptance(w, w', e, g) && Young(w', Job(e, 1, g))
    requires e.recipient !in w.h.overlapped
    ensures Job(e, 1, g) !in w.h.jobs && Job(e, 1, g) !in w.r.delayed
  {
    NotYoung(w, e, g);
    assert Job(e, 1, g) in w.h.jobs ==> JobOk(w, Job(e, 1, g));
    hide AllOps, AllReservations, AllUsers, AllMarked, AllSentBy, AllRedisMarks, AllReasons, AllOnlyCopies, AllEntries;
  }

  lemma AcceptMarked(w: World, w': World, e: Event, g: nat)
    requires Inv(w) && Accepts(w, e, g) && Acceptance(w, w', e, g)
    ensures AllMarked(w')
  {
    AppendedQueue(w, w', Job(e, 1, g));
    forall j | j in w'.h.marked
      ensures MarkedOk(w', j)
    {
      assert MarkedOk(w, j);
      if Counts(w', j) && Young(w', j) {
        OldJobsElsewhere(w, w', e, g, j);
      }
    }
  }

  lemma AcceptAccepted(w: World, w': World, e: Event, g: nat, stale: bool, clock: int)
    requires Inv(w) && Accepts(w, e, g) && w' == Accept(w, e, g, stale, clock)
    ensures AllAccepted(w')
  {
    assert UserOk(w, e.recipient);
    forall k | k in w'.h.accepted
      ensures AcceptedOk(w', k)
    {
      if k in w.h.accepted { assert AcceptedOk(w, k); }
    }
  }

  lemma KeepAccept(w: World, e: Event, g: nat, stale: bool, clock: int)
    requires Inv(w) && Accepts(w, e, g)
    ensures Inv(Accept(w, e, g, stale, clock))
  {
    var w' := Accept(w, e, g, stale, clock);
    AcceptanceShape(w, e, g, stale, clock);
    AcceptJobs(w, w', e, g);
    AcceptCopies(w, w', e, g);
    AcceptMarked(w, w', e, g);
    AcceptAccepted(w, w', e, g, stale, clock);
    AcceptRest(w, w');
    ReasonsCarry(w, w');
  }

  lemma AcceptRest(w: World, w': World)
    requires Inv(w) && Grows(w, w') && w'.ops == w.ops && w'.deletions == w.deletions
    requires w'.h.reservations == w.h.reservations && w'.h.sentBy == w.h.sentBy
    requires w'.r.now == w.r.now && w'.r.marks == w.r.marks && w'.r.deleted == w.r.deleted && w'.r.pending == w.r.pending
    requires w'.r.generations == w.r.generations && w'.r.inflight == w.r.inflight && w'.r.leases == w.r.leases
    ensures AllSentBy(w') && AllRedisMarks(w') && AllUsers(w') && AllReservations(w') && AllOps(w')
  {
    SentByCarries(w, w');
    RedisMarksCarry(w, w');
    assert forall u :: u in w.deletions ==> UserOk(w, u);
    UsersCarry(w, w');
    forall t | t in w'.ops
      ensures OpOk(w', t)
    {
      OpJob(w, t);
      OpCarries(w, w', t);
    }
  }
}
