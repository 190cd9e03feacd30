/** Replaying a source entry after any number of partial passes gives each recipient one first-stage job. */
module FanOutReplay {
  import opened DeliveryState
  import opened FanOut

  /** One pass: the recipients it got to, which need not be those of another pass, and how long it is until the next. */
  datatype Attempt = Attempt(users: seq<int>, stale: bool, clock: int, pause: nat)

  /** enqueue_alert with nothing in between. */
  function EnqueueOne(r: Redis, e: Event, stale: bool, clock: int): Redis {
    if Enqueues(r, e, Generation(r, e.recipient)) then Enqueued(r, e, Generation(r, e.recipient), stale, clock) else r
  }

  function Pass(r: Redis, s: Source, users: seq<int>, stale: bool, clock: int): Redis
    decreases |users|
  {
    if users == [] then r else Pass(EnqueueOne(r, EventFor(s, users[0]), stale, clock), s, users[1..], stale, clock)
  }

  function AttemptOnce(r: Redis, s: Source, a: Attempt): Redis {
    var r1 := Pass(r, s, a.users, a.stale, a.clock);
    r1.(now := r1.now + a.pause)
  }

  function Attempts(r: Redis, s: Source, attempts: seq<Attempt>): Redis
    decreases |attempts|
  {
    if attempts == [] then r else Attempts(AttemptOnce(r, s, attempts[0]), s, attempts[1..])
  }

  function Elapsed(attempts: seq<Attempt>): nat {
    if attempts == [] then 0 else attempts[0].pause + Elapsed(attempts[1..])
  }

  /** The first-stage entries of an event that were added since state `r0`. */
  function FirstJobs(r0: Redis, r: Redis, e: Event): set<nat> {
    set id | id in r.entries && r0.lastId < id && r.entries[id].event == e && r.entries[id].step == 1
  }

  /** Either nothing was added for the event, or one entry under a marker that outlives the replay horizon. */
  ghost predicate AtMostOne(r0: Redis, r: Redis, e: Event) {
    if IsEnqueued(r, e) then (exists id :: FirstJobs(r0, r, e) == {id}) && r0.now + REPLAY_HORIZON <= r.enqueued[e]
    else FirstJobs(r0, r, e) == {}
  }

  ghost predicate Progress(r0: Redis, r: Redis, e: Event) {
    && r0.now <= r.now && r0.lastId <= r.lastId && (forall id :: id in r.entries ==> id <= r.lastId)
    && r.deleted == r0.deleted && r.generations == r0.generations
    && if e.recipient in r0.deleted then FirstJobs(r0, r, e) == {} else AtMostOne(r0, r, e)
  }

  lemma EnqueueProgress(r0: Redis, r: Redis, e: Event, other: Event, stale: bool, clock: int)
    requires Progress(r0, r, e)
    ensures var r' := EnqueueOne(r, other, stale, clock);
      Progress(r0, r', e) && r'.now == r.now && (IsEnqueued(r, e) ==> IsEnqueued(r', e)) &&
      (e != other && !IsEnqueued(r, e) ==> !IsEnqueued(r', e)) &&
      (e == other && e.recipient !in r0.deleted ==> IsEnqueued(r', e))
  {
    var r' := EnqueueOne(r, other, stale, clock);
    if Enqueues(r, other, Generation(r, other.recipient)) {
      var id := r.lastId + 1;
      if e == other {
        assert FirstJobs(r0, r', e) == {id};
      } else {
        assert FirstJobs(r0, r', e) == FirstJobs(r0, r, e);
      }
    }
  }

  lemma {:induction false} PassProgress(r0: Redis, r: Redis, e: Event, s: Source, users: seq<int>, stale: bool, clock: int)
    requires Progress(r0, r, e)
    ensures var r' := Pass(r, s, users, stale, clock);
      Progress(r0, r', e) && r'.now == r.now && (IsEnqueued(r, e) ==> IsEnqueued(r', e)) &&
      (e.recipient !in users && !IsEnqueued(r, e) ==> !IsEnqueued(r', e)) &&
      (e.recipient in users && e == EventFor(s, e.recipient) && e.recipient !in r0.deleted ==> IsEnqueued(r', e))
    decreases |users|
  {
    if users != [] {
      EnqueueProgress(r0, r, e, EventFor(s, users[0]), stale, clock);
      PassProgress(r0, EnqueueOne(r, EventFor(s, users[0]), stale, clock), e, s, users[1..], stale, clock);
    }
  }

  predicate Reached(attempts: seq<Attempt>, user: int) {
    exists a :: a in attempts && user in a.users
  }

  lemma {:induction false} AttemptsProgress(r0: Redis, r: Redis, e: Event, s: Source, attempts: seq<Attempt>)
    requires Progress(r0, r, e) && r.now + Elapsed(attempts) < r0.now + REPLAY_HORIZON && e == EventFor(s, e.recipient)
    ensures var r' := Attempts(r, s, attempts);
      && Progress(r0, r', e)
      && (!Reached(attempts, e.recipient) && !IsEnqueued(r, e) ==> !IsEnqueued(r', e))
      && (e.recipient !in r0.deleted && (Reached(attempts, e.recipient) || IsEnqueued(r, e)) ==> IsEnqueued(r', e))
    decreases |attempts|
  {
    if attempts != [] {
      var a := attempts[0];
      PassProgress(r0, r, e, s, a.users, a.stale, a.clock);
      var r1 := Pass(r, s, a.users, a.stale, a.clock);
      var r2 := AttemptOnce(r, s, a);
      assert FirstJobs(r0, r2, e) == FirstJobs(r0, r1, e);
      assert e.recipient !in r0.deleted ==> (IsEnqueued(r1, e) <==> IsEnqueued(r2, e));
      AttemptsProgress(r0, r2, e, s, attempts[1..]);
      assert attempts == [a] + attempts[1..];
      assert Reached(attempts, e.recipient) <==> e.recipient in a.users || Reached(attempts[1..], e.recipient);
    }
  }

  /** Any number of passes within the replay horizon, each over its own list and each possibly cut off: a recipient
      whose event is not marked yet gets exactly one new first-stage job if some pass got to him, and none if he is
      deleted or no pass did. */
  lemma ReplayGivesOne(r: Redis, s: Source, attempts: seq<Attempt>, u: int)
    requires (forall id :: id in r.entries ==> id <= r.lastId) && Elapsed(attempts) < REPLAY_HORIZON
    requires !IsEnqueued(r, EventFor(s, u))
    ensures |FirstJobs(r, Attempts(r, s, attempts), EventFor(s, u))| ==
            if Reached(attempts, u) && u !in r.deleted then 1 else 0
  {
    var e := EventFor(s, u);
    assert FirstJobs(r, r, e) == {};
    AttemptsProgress(r, r, e, s, attempts);
  }
}
