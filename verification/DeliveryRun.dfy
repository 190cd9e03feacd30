/** The delivery pipeline as a system of atomic steps: producers, the delayed-queue mover, stream consumers,
    delivery operations at every await point, lease heartbeats, trimming, deletion and registration,
    crashes, and the clock. */
module DeliveryRun {
  import opened DeliveryState

  const BUDGET: nat := 330 * SECOND

  /** What a delivery operation does next. Each point is one Redis call or one outside event. */
  datatype Point =
    | ReadGeneration | ReadDeleted | ReadAge | ReadOwnMark | ReadClear | ReadPrior | ReadNight | ReadBlocked
    | AwaitSlot | Reguard | RecheckContent | BeginSend | Sending | CountFailure
    | Settle(how: Settlement)
    | EndSend

  /** Why a job is over: its stage was marked, the recipient's generation is gone, the post is too old, or
      another job had already sent the stage. */
  datatype Reason = Finished(mark: Mark) | Privacy | OverAge | AlreadySent

  /** The atomic command that acknowledges the stream entry. */
  datatype Settlement = Drop(reason: Reason) | Skip | MarkSent | DeadLetter | PutBack

  datatype Outcome = Delivered | Retry | Permanent

  /** What the environment answers at a point: clear markers, night window, mute, blocked flag, rate slot, Telegram. */
  datatype Answers = Answers(cleared: bool, night: bool, muted: bool, blocked: bool, slot: bool, outcome: Outcome)

  /** One delivery operation: the entry it was given, its lease token (its key in `ops`), and the instants
      of its start and of its last successful renewal. */
  datatype Op = Op(id: nat, job: Job, consumer: nat, point: Point, started: nat, renewed: nat, reserved: bool)

  datatype Deletion = Waiting(generation: nat) | Cleaning(generation: nat)

  datatype Reservation = Reservation(user: int, begun: nat)

  /** Facts about the past that no process can read. `overlapped` are the users who registered, or were fenced again,
      while a deletion of theirs was still running; `late` are those for whom a reservation was given back only after
      its life. */
  datatype History = History(
    log: map<nat, Job>,
    jobs: set<Job>,
    accepted: map<(Event, nat), nat>,
    closed: map<Job, Reason>,
    marked: map<Job, Mark>,
    sentBy: set<Job>,
    tokens: set<nat>,
    reservations: map<nat, Reservation>,
    used: map<int, set<nat>>,
    overlapped: set<int>,
    late: set<int>
  )

  datatype World = World(r: Redis, ops: map<nat, Op>, deletions: map<int, Deletion>, h: History)

  datatype Act =
    | Tick(ms: nat)
    | EnqueueAlert(event: Event, generation: nat, stale: bool, clock: int)
    | PopMature(clock: int, limit: nat, due: seq<Job>)
    | ReadNew(id: nat, consumer: nat)
    | ClaimIdle(id: nat, consumer: nat)
    | StartOp(token: nat, id: nat, consumer: nat)
    | Heartbeat(token: nat)
    | Advance(token: nat, answers: Answers)
    | Cancel(token: nat)
    | Crash(token: nat)
    | ReleaseLease(stage: Stage, token: nat)
    | TrimStream(floor: nat)
    | ForgetRetry(id: nat)
    | FenceUser(user: int, generation: nat)
    | SeeZero(user: int)
    | DropMark(stage: Stage)
    | DropMarker(event: Event)
    | DropDelayed(job: Job)
    | ScrubAck(id: nat)
    | ScrubDelete(id: nat)
    | EndDeletion(user: int)
    | RegisterUser(user: int)

  function Used(w: World, user: int): set<nat> {
    {0} + if user in w.h.used then w.h.used[user] else {}
  }

  /** The operation has not been cancelled: it is within its time budget and its last renewal still holds. */
  predicate Active(w: World, op: Op) {
    w.r.now < op.renewed + LEASE_LIFE && InBudget(w, op)
  }

  predicate InBudget(w: World, op: Op) {
    w.r.now < op.started + BUDGET
  }

  predicate CleaningUser(w: World, user: int) {
    user in w.deletions && w.deletions[user].Cleaning?
  }

  predicate CanAdvance(w: World, t: nat) {
    t in w.ops && (w.ops[t].point.EndSend? || Active(w, w.ops[t]))
  }

  /** A consumer that was handed entry `id` takes the lease of its stage under a new token. */
  predicate CanStart(w: World, t: nat, id: nat, c: nat) {
    && t !in w.h.tokens && t !in w.ops && id in w.h.log && id <= w.r.cursor
    && CanRenew(w.r, id, StageOf(w.h.log[id]), c, t)
  }

  /** The deletion in progress has cleared its wait loop and may remove this user's traces. Once another profile
      operation has run beside it, any number of deletions may be at work on the user at any time. */
  predicate MayClean(w: World, user: int) {
    CleaningUser(w, user) || user in w.h.overlapped
  }

  predicate CleansEntry(w: World, id: nat) {
    id in w.h.log && MayClean(w, w.h.log[id].event.recipient)
  }

  predicate CleansJob(w: World, j: Job) {
    var u := j.event.recipient;
    && j in w.r.delayed
    && (u in w.h.overlapped || (CleaningUser(w, u) && j.generation != w.deletions[u].generation))
  }

  /** A profile operation on the user begins while a deletion of his is still running. */
  predicate Overlaps(w: World, a: Act, user: int) {
    (a == RegisterUser(user) || (a.FenceUser? && a.user == user)) && user in w.deletions
  }

  function Overlapping(w: World, user: int): set<int> {
    if user in w.deletions then w.h.overlapped + {user} else w.h.overlapped
  }

  ghost predicate Enabled(w: World, a: Act) {
    match a
    case Tick(_) => true
    case EnqueueAlert(e, _, _, _) => e.posted <= w.r.now + CLOCK_SKEW
    case PopMature(clock, limit, due) => IsDue(w.r.delayed, clock, limit, due)
    case ReadNew(id, _) => NextUnread(w.r, id)
    case ClaimIdle(id, _) => id in w.r.pending
    case StartOp(t, id, c) => CanStart(w, t, id, c)
    case Heartbeat(t) => t in w.ops
    case Advance(t, _) => CanAdvance(w, t)
    case Cancel(t) => t in w.ops
    case Crash(t) => t in w.ops
    case ReleaseLease(_, t) => t !in w.ops
    case TrimStream(floor) => IsFloor(w.r, floor)
    case ForgetRetry(_) => true
    case FenceUser(u, g) => g !in Used(w, u)
    case SeeZero(u) => u in w.deletions && Inflight(w.r, u) == 0
    case DropMark(s) => MayClean(w, s.event.recipient)
    case DropMarker(e) => MayClean(w, e.recipient)
    case DropDelayed(j) => CleansJob(w, j)
    case ScrubAck(id) => CleansEntry(w, id)
    case ScrubDelete(id) => CleansEntry(w, id)
    case EndDeletion(u) => u in w.deletions
    case RegisterUser(_) => true
  }

  /** The points that only look: the next point, from what is read there. The order and the branches are
      those of the delivery routine. */
  function Look(r: Redis, op: Op, x: Answers): Point
    requires op.point.ReadGeneration? || op.point.ReadDeleted? || op.point.ReadAge? || op.point.ReadOwnMark?
          || op.point.ReadClear? || op.point.ReadPrior? || op.point.ReadNight? || op.point.ReadBlocked?
          || op.point.AwaitSlot? || op.point.RecheckContent? || op.point.Sending?
  {
    var j := op.job;
    var age := r.now - j.event.posted;
    match op.point
    case ReadGeneration => if Current(r, j) then ReadDeleted else Settle(Drop(Privacy))
    case ReadDeleted => if j.event.recipient in r.deleted then Settle(Drop(Privacy)) else ReadAge
    case ReadAge => if age > MAX_AGE then Settle(Drop(OverAge)) else ReadOwnMark
    case ReadOwnMark =>
      if HasMark(r, StageOf(j), Sent) then Settle(Drop(AlreadySent)) else if j.step > 1 then ReadClear else ReadBlocked
    case ReadClear => if x.cleared then Settle(Skip) else ReadPrior
    case ReadPrior =>
      if j.step == 0 then Settle(PutBack) else
      var prior := Stage(j.event, j.step - 1);
      if HasMark(r, prior, Skipped) then Settle(Skip)
      else if HasMark(r, prior, Failed) then Settle(DeadLetter)
      else if HasMark(r, prior, Sent) then ReadNight
      else Settle(PutBack)
    case ReadNight => if !x.night || x.muted then Settle(Skip) else ReadBlocked
    case ReadBlocked => if x.blocked then Settle(DeadLetter) else AwaitSlot
    case AwaitSlot => if x.slot then Reguard else CountFailure
    case RecheckContent => if age > MAX_AGE || (age > FRESHNESS && j.step > 1) then Settle(Skip) else BeginSend
    case Sending =>
      match x.outcome
      case Delivered => Settle(MarkSent)
      case Permanent => Settle(DeadLetter)
      case Retry => CountFailure
  }

  predicate Looks(p: Point) {
    !p.Reguard? && !p.BeginSend? && !p.CountFailure? && !p.Settle? && !p.EndSend?
  }

  /** The operation is over, or only its reservation is left to give back. */
  function Leave(w: World, t: nat): World
    requires t in w.ops
  {
    w.(ops := if w.ops[t].reserved then w.ops[t := w.ops[t].(point := EndSend)] else w.ops - {t})
  }

  function Close(w: World, j: Job, reason: Reason): World {
    w.(h := w.h.(closed := w.h.closed[j := reason]))
  }

  function NoteMark(w: World, j: Job, m: Mark): World {
    w.(h := w.h.(closed := w.h.closed[j := Finished(m)], marked := w.h.marked[j := m],
                 sentBy := if m == Sent then w.h.sentBy + {j} else w.h.sentBy))
  }

  /** The settling command of an entry; the retry counter goes with a dead letter. */
  function SettleEntry(w: World, id: nat, j: Job, how: Settlement): World {
    var s := StageOf(j);
    match how
    case Drop(reason) => Close(w.(r := Ack(w.r, id)), j, reason)
    case Skip => NoteMark(w.(r := MarkAndAck(w.r, id, s, Skipped)), j, Skipped)
    case MarkSent => NoteMark(w.(r := MarkAndAck(w.r, id, s, Sent)), j, Sent)
    case DeadLetter =>
      var w1 := w.(r := StoreDeadLetter(w.r, id, j));
      if Allowed(w.r, j) then NoteMark(w1, j, Failed) else Close(w1, j, Privacy)
    case PutBack => w.(r := Requeue(w.r, id, j))
  }

  /** The reservation is given back, in time or late. */
  function Ended(w: World, t: nat): World
    requires t in w.ops
  {
    var u := w.ops[t].job.event.recipient;
    w.(r := End(w.r, u), ops := w.ops - {t},
       h := w.h.(reservations := w.h.reservations - {t},
                 late := if t in w.h.reservations && w.r.now < w.h.reservations[t].begun + INFLIGHT_LIFE then w.h.late
                         else w.h.late + {u}))
  }

  function AdvanceOp(w: World, t: nat, x: Answers): World
    requires t in w.ops
  {
    var op := w.ops[t];
    var u := op.job.event.recipient;
    match op.point
    case Reguard => RenewOp(w, t, RecheckContent)
    case BeginSend =>
      if Begins(w.r, u, op.job.generation) then
        w.(r := Begin(w.r, u),
           ops := w.ops[t := op.(point := Sending, reserved := true)],
           h := w.h.(reservations := w.h.reservations[t := Reservation(u, w.r.now)]))
      else w.(ops := w.ops[t := op.(point := Settle(Drop(Privacy)))])
    case CountFailure =>
      var w1 := w.(r := CountRetry(w.r, op.id));
      if Attempts(w1.r, op.id) < MAX_ATTEMPTS then Leave(w1, t)
      else w1.(ops := w1.ops[t := op.(point := Settle(DeadLetter))])
    case Settle(how) => SettleEntry(Leave(w, t), op.id, op.job, how)
    case EndSend => Ended(w, t)
    case _ => w.(ops := w.ops[t := op.(point := Look(w.r, op, x))])
  }

  /** A renewal: on success the operation goes on at `next`, on failure it is cancelled. */
  function RenewOp(w: World, t: nat, next: Point): World
    requires t in w.ops
  {
    var op := w.ops[t];
    if CanRenew(w.r, op.id, StageOf(op.job), op.consumer, t)
    then w.(r := Renew(w.r, StageOf(op.job), t), ops := w.ops[t := op.(renewed := w.r.now, point := next)])
    else Leave(w, t)
  }

  function PopOneJob(w: World, j: Job): World {
    w.(r := PopOne(w.r, j),
       h := w.h.(log := if Allowed(w.r, j) then w.h.log[w.r.lastId + 1 := j] else w.h.log,
                 closed := if Allowed(w.r, j) then w.h.closed else w.h.closed[j := Privacy]))
  }

  function PopJobs(w: World, due: seq<Job>): World
    decreases |due|
  {
    if due == [] then w else PopJobs(PopOneJob(w, due[0]), due[1..])
  }

  function Accept(w: World, e: Event, g: nat, stale: bool, clock: int): World {
    var id := w.r.lastId + 1;
    w.(r := Enqueued(w.r, e, g, stale, clock), h := w.h.(
      log := w.h.log[id := Job(e, 1, g)],
      jobs := w.h.jobs + {Job(e, 1, g)} + if stale then {} else {Job(e, 2, g), Job(e, 3, g)},
      accepted := if (e, g) in w.h.accepted then w.h.accepted else w.h.accepted[(e, g) := w.r.now]))
  }

  function Started(w: World, t: nat, id: nat, c: nat): World
    requires id in w.h.log
  {
    var j := w.h.log[id];
    w.(r := Renew(w.r, StageOf(j), t),
       ops := w.ops[t := Op(id, j, c, ReadGeneration, w.r.now, w.r.now, false)],
       h := w.h.(tokens := w.h.tokens + {t}))
  }

  function Fenced(w: World, u: int, g: nat): World {
    w.(r := Fence(w.r, u, g), deletions := w.deletions[u := Waiting(g)],
       h := w.h.(used := w.h.used[u := Used(w, u) + {g}], overlapped := Overlapping(w, u)))
  }

  function Registered(w: World, u: int): World {
    w.(r := Register(w.r, u), h := w.h.(overlapped := Overlapping(w, u)))
  }

  function DelayedDropped(w: World, j: Job): World {
    Close(w.(r := w.r.(delayed := w.r.delayed - {j})), j, Privacy)
  }

  function ScrubAcked(w: World, id: nat): World
    requires id in w.h.log
  {
    Close(w.(r := Ack(w.r, id)), w.h.log[id], Privacy)
  }

  function ScrubDeleted(w: World, id: nat): World
    requires id in w.h.log
  {
    Close(w.(r := w.r.(entries := w.r.entries - {id})), w.h.log[id], Privacy)
  }

  ghost function After(w: World, a: Act): World
    requires Enabled(w, a)
  {
    match a
    case Tick(ms) => w.(r := w.r.(now := w.r.now + ms))
    case EnqueueAlert(e, g, stale, clock) =>
      if Enqueues(w.r, e, g) then Accept(w, e, g, stale, clock) else w
    case PopMature(_, _, due) => PopJobs(w, due)
    case ReadNew(id, c) => w.(r := Read(w.r, id, c))
    case ClaimIdle(id, c) => w.(r := Claim(w.r, id, c))
    case StartOp(t, id, c) => Started(w, t, id, c)
    case Heartbeat(t) => RenewOp(w, t, w.ops[t].point)
    case Advance(t, x) => AdvanceOp(w, t, x)
    case Cancel(t) => Leave(w, t)
    case Crash(t) => w.(ops := w.ops - {t})
    case ReleaseLease(s, t) => w.(r := Release(w.r, s, t))
    case TrimStream(floor) => w.(r := Trim(w.r, floor))
    case ForgetRetry(id) => w.(r := w.r.(retries := w.r.retries - {id}))
    case FenceUser(u, g) => Fenced(w, u, g)
    case SeeZero(u) => w.(deletions := w.deletions[u := Cleaning(w.deletions[u].generation)])
    case DropMark(s) => w.(r := w.r.(marks := w.r.marks - {s}))
    case DropMarker(e) => w.(r := w.r.(enqueued := w.r.enqueued - {e}))
    case DropDelayed(j) => DelayedDropped(w, j)
    case ScrubAck(id) => ScrubAcked(w, id)
    case ScrubDelete(id) => ScrubDeleted(w, id)
    case EndDeletion(u) => w.(deletions := w.deletions - {u})
    case RegisterUser(u) => Registered(w, u)
  }

  predicate Initial(w: World) {
    && w.r.entries == map[] && w.r.pending == map[] && w.r.delayed == map[] && w.r.cursor <= w.r.lastId
    && w.r.marks == map[] && w.r.enqueued == map[] && w.r.inflight == map[] && w.r.generations == map[]
    && w.r.retries == map[]
    && w.ops == map[] && w.deletions == map[]
    && w.h == History(map[], {}, map[], map[], map[], {}, {}, map[], map[], {}, {})
  }

  ghost predicate IsRun(run: seq<World>, acts: seq<Act>) {
    && |run| == |acts| + 1 && Initial(run[0])
    && forall i :: 0 <= i < |acts| ==> Enabled(run[i], acts[i]) && run[i + 1] == After(run[i], acts[i])
  }

  /** The step at which a send begins: the reservation script has just let it through. */
  predicate BeginsSend(w: World, a: Act, j: Job) {
    && a.Advance? && a.token in w.ops && w.ops[a.token].point == BeginSend && w.ops[a.token].job == j
    && Begins(w.r, j.event.recipient, j.generation)
  }
}
