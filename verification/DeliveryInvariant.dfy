/** What every reachable state of the delivery system satisfies, one predicate per kind of object: the jobs, the events
    accepted, the stream entries and the copies of a job, the marks, the reasons for which jobs were closed, the
    operations, the reservations and the users. */
module DeliveryInvariant {
  import opened DeliveryState
  import opened DeliveryRun

  /** Stream entry `id` still stands for its job: waiting to be read, or read and not acknowledged. */
  predicate Live(w: World, id: nat) {
    && id in w.h.log
    && (id in w.r.pending || (id in w.r.entries && w.r.cursor < id))
  }

  /** The job is of its recipient's present generation, and no profile operation of his ran beside a deletion. */
  predicate Counts(w: World, j: Job) {
    Current(w.r, j) && j.event.recipient !in w.h.overlapped
  }

  /** Nothing has undermined what the deletions and the in-flight counter of this user tell. */
  predicate Orderly(w: World, u: int) {
    u !in w.h.overlapped && u !in w.h.late
  }

  ghost predicate NotLost(w: World, j: Job) {
    || j in w.r.delayed
    || j in w.h.closed
    || exists id :: Live(w, id) && w.h.log[id] == j
  }

  /** The event was accepted for this generation, less than a marker's life ago. */
  predicate Young(w: World, j: Job) {
    && (j.event, j.generation) in w.h.accepted
    && w.r.now < w.h.accepted[(j.event, j.generation)] + REPLAY_HORIZON
  }

  ghost predicate StageSent(w: World, s: Stage) {
    exists g :: Job(s.event, s.step, g) in w.h.sentBy
  }

  ghost predicate ReasonHolds(w: World, j: Job, reason: Reason) {
    match reason
    case Finished(_) => j in w.h.marked
    case Privacy => !Counts(w, j)
    case OverAge => w.r.now - j.event.posted > MAX_AGE
    case AlreadySent => StageSent(w, StageOf(j))
  }

  ghost predicate JobOk(w: World, j: Job)
    requires j in w.h.jobs
  {
    && 1 <= j.step <= 3
    && (j.event, j.generation) in w.h.accepted
    && NotLost(w, j)
  }

  ghost predicate AcceptedOk(w: World, k: (Event, nat))
    requires k in w.h.accepted
  {
    var at := w.h.accepted[k];
    && at <= w.r.now && k.0.posted <= at + CLOCK_SKEW
    && k.1 in Used(w, k.0.recipient)
    && (Generation(w.r, k.0.recipient) == k.1 && k.0.recipient !in w.h.overlapped ==>
          && k.0.recipient !in w.r.deleted
          && (w.r.now < at + REPLAY_HORIZON ==> k.0 in w.r.enqueued && at + REPLAY_HORIZON <= w.r.enqueued[k.0]))
  }

  ghost predicate EntryOk(w: World, id: nat)
    requires id in w.h.log
  {
    && 0 < id <= w.r.lastId
    && w.h.log[id] in w.h.jobs
    && (id in w.r.entries ==> w.r.entries[id] == w.h.log[id])
    && (id in w.r.pending ==> id <= w.r.cursor)
    && ((id in w.r.pending || w.r.cursor < id) && id !in w.r.entries ==>
          w.h.log[id] in w.h.closed && !Counts(w, w.h.log[id]))
  }

  predicate StreamOk(w: World) {
    && w.r.cursor <= w.r.lastId
    && (forall id :: id in w.r.entries ==> id in w.h.log)
    && (forall id :: id in w.r.pending ==> id in w.h.log)
    && (forall j :: j in w.r.delayed ==> j in w.h.jobs)
    && (forall j :: j in w.h.closed ==> j in w.h.jobs)
  }

  /** A job that can still be sent has one copy: one live entry, or one delayed member. */
  ghost predicate OnlyCopy(w: World, id: nat)
    requires id in w.h.log
  {
    var j := w.h.log[id];
    Live(w, id) && Counts(w, j) && Young(w, j) ==>
      j !in w.r.delayed && forall k :: Live(w, k) && w.h.log[k] == j ==> k == id
  }

  ghost predicate NoCopy(w: World, j: Job) {
    j !in w.r.delayed && forall id :: Live(w, id) ==> w.h.log[id] != j
  }

  ghost predicate MarkedOk(w: World, j: Job)
    requires j in w.h.marked
  {
    && j in w.h.jobs
    && (Counts(w, j) && Young(w, j) ==> NoCopy(w, j))
    && (Counts(w, j) && j in w.h.sentBy ==> w.h.marked[j] == Sent)
    && (w.h.marked[j] == Sent ==> j in w.h.sentBy)
  }

  ghost predicate SentByOk(w: World, j: Job) {
    && j in w.h.jobs && j in w.h.marked
    && (j.step > 1 ==> StageSent(w, Stage(j.event, j.step - 1)))
  }

  ghost predicate RedisMarkOk(w: World, s: Stage)
    requires s in w.r.marks
  {
    HasMark(w.r, s, Sent) ==> StageSent(w, s)
  }

  predicate PastAge(p: Point) {
    !p.ReadGeneration? && !p.ReadDeleted? && !p.ReadAge? && !p.EndSend? && !(p.Settle? && p.how.Drop?)
  }

  /** The previous stage has been looked up and found sent. */
  predicate PastPrior(p: Point) {
    || p.ReadNight? || p.ReadBlocked? || p.AwaitSlot? || p.Reguard? || p.RecheckContent? || p.BeginSend? || p.Sending?
    || (p.Settle? && p.how.MarkSent?)
  }

  predicate Reserves(p: Point) {
    p.Sending? || p.EndSend? || (p.Settle? && p.how.MarkSent?)
  }

  predicate MayReserve(p: Point) {
    Reserves(p) || p.Settle? || p.CountFailure?
  }

  ghost predicate PriorSent(w: World, j: Job) {
    j.step > 1 ==> StageSent(w, Stage(j.event, j.step - 1))
  }

  ghost predicate OpOk(w: World, t: nat)
    requires t in w.ops
  {
    var op := w.ops[t];
    && t in w.h.tokens
    && op.id in w.h.log && w.h.log[op.id] == op.job
    && op.started <= w.r.now && op.renewed <= w.r.now
    && (!op.point.EndSend? && Active(w, op) ==> OpHolds(w, t))
    && (PastAge(op.point) ==> op.started - op.job.event.posted <= MAX_AGE)
    && (PastPrior(op.point) ==> PriorSent(w, op.job))
    && (op.point.Settle? && op.point.how.Drop? ==> ReasonHolds(w, op.job, op.point.how.reason))
    && (Reserves(op.point) ==> op.reserved)
    && (op.reserved ==> MayReserve(op.point) && ReservedOk(w, t))
    && (t in w.h.reservations ==> op.reserved)
  }

  /** The operation has its stage's lease, and its entry is still unacknowledged if its job can still be sent. */
  ghost predicate OpHolds(w: World, t: nat)
    requires t in w.ops
  {
    var op := w.ops[t];
    var s := StageOf(op.job);
    && s in w.r.leases && w.r.leases[s].value == t && op.renewed + LEASE_LIFE <= w.r.leases[s].expires
    && (Counts(w, op.job) ==> op.id in w.r.pending)
  }

  /** A reserved send is on record, begun within the operation's own life. */
  predicate ReservedOk(w: World, t: nat)
    requires t in w.ops
  {
    && t in w.h.reservations
    && w.h.reservations[t].user == w.ops[t].job.event.recipient
    && w.ops[t].started <= w.h.reservations[t].begun
  }

  /** The sends of a recipient that may still be under way. */
  function Outstanding(w: World, user: int): set<nat> {
    set t | t in w.h.reservations && w.h.reservations[t].user == user && w.r.now < w.h.reservations[t].begun + INFLIGHT_LIFE
  }

  ghost predicate ReservationOk(w: World, t: nat)
    requires t in w.h.reservations
  {
    var v := w.h.reservations[t];
    && t in w.h.tokens && v.begun <= w.r.now
    && (v.user !in w.h.late && w.r.now < v.begun + INFLIGHT_LIFE ==>
          v.user in w.r.inflight && v.begun + INFLIGHT_LIFE <= w.r.inflight[v.user].expires)
  }

  ghost predicate UserOk(w: World, u: int) {
    && Generation(w.r, u) in Used(w, u)
    && (u !in w.h.late ==> |Outstanding(w, u)| <= Inflight(w.r, u))
    && (u in w.deletions && u !in w.h.overlapped ==> u in w.r.deleted && w.deletions[u].generation == Generation(w.r, u))
    && (CleaningUser(w, u) && u !in w.h.overlapped && u !in w.h.late ==> Outstanding(w, u) == {})
  }

  ghost predicate AllJobs(w: World) {
    forall j {:trigger JobOk(w, j)} :: j in w.h.jobs ==> JobOk(w, j)
  }

  ghost predicate AllAccepted(w: World) {
    forall k {:trigger AcceptedOk(w, k)} :: k in w.h.accepted ==> AcceptedOk(w, k)
  }

  ghost predicate AllEntries(w: World) {
    forall id {:trigger EntryOk(w, id)} :: id in w.h.log ==> EntryOk(w, id)
  }

  ghost predicate AllOnlyCopies(w: World) {
    forall id {:trigger OnlyCopy(w, id)} :: id in w.h.log ==> OnlyCopy(w, id)
  }

  ghost predicate AllMarked(w: World) {
    forall j {:trigger MarkedOk(w, j)} :: j in w.h.marked ==> MarkedOk(w, j)
  }

  ghost predicate AllSentBy(w: World) {
    forall j {:trigger SentByOk(w, j)} :: j in w.h.sentBy ==> SentByOk(w, j)
  }

  ghost predicate AllRedisMarks(w: World) {
    forall s {:trigger RedisMarkOk(w, s)} :: s in w.r.marks ==> RedisMarkOk(w, s)
  }

  ghost predicate AllReasons(w: World) {
    forall j {:trigger ReasonHolds(w, j, w.h.closed[j])} :: j in w.h.closed ==> ReasonHolds(w, j, w.h.closed[j])
  }

  ghost predicate AllOps(w: World) {
    forall t {:trigger OpOk(w, t)} :: t in w.ops ==> OpOk(w, t)
  }

  ghost predicate AllReservations(w: World) {
    forall t {:trigger ReservationOk(w, t)} :: t in w.h.reservations ==> ReservationOk(w, t)
  }

  ghost predicate AllUsers(w: World) {
    forall u {:trigger UserOk(w, u)} :: UserOk(w, u)
  }

  ghost predicate Inv(w: World) {
    && StreamOk(w) && AllJobs(w) && AllAccepted(w) && AllEntries(w) && AllOnlyCopies(w)
    && AllMarked(w) && AllSentBy(w) && AllRedisMarks(w) && AllReasons(w)
    && AllOps(w) && AllReservations(w) && AllUsers(w)
  }
}
