/** The Redis keys of the delivery pipeline and the effect of each atomic script on them. Times are in
    milliseconds; a key set to expire at `t` is gone from `t` on. */
module DeliveryState {

  const SECOND: nat := 1000
  const REPLAY_HORIZON: nat := 2592000 * SECOND
  const MAX_AGE: nat := 604800 * SECOND
  const FRESHNESS: nat := 600 * SECOND
  const CLOCK_SKEW: nat := 300 * SECOND
  const MARK_LIFE: nat := 604800 * SECOND
  const LEASE_LIFE: nat := 90 * SECOND
  const INFLIGHT_LIFE: nat := 600 * SECOND
  const DELAY_2: nat := 60 * SECOND
  const DELAY_3: nat := 360 * SECOND
  const REQUEUE_DELAY: nat := 10 * SECOND
  const MAX_ATTEMPTS: nat := 5
  const SCRUB_PAGE: nat := 500

  /** One source post for one recipient; `posted` is the post's own date. */
  datatype Event = Event(source: int, message: int, recipient: int, posted: int)

  datatype Stage = Stage(event: Event, step: nat)

  /** The queued payload of one stage. Generation 0 stands for the default "0". */
  datatype Job = Job(event: Event, step: nat, generation: nat)

  function StageOf(j: Job): Stage {
    Stage(j.event, j.step)
  }

  datatype Mark = Sent | Skipped | Failed

  datatype Expiring<+T> = Expiring(value: T, expires: nat)

  datatype Redis = Redis(
    now: nat,
    entries: map<nat, Job>,
    lastId: nat,
    cursor: nat,
    pending: map<nat, nat>,
    delayed: map<Job, int>,
    deadLetters: seq<Job>,
    retries: map<nat, nat>,
    enqueued: map<Event, nat>,
    marks: map<Stage, Expiring<Mark>>,
    deleted: set<int>,
    generations: map<int, nat>,
    inflight: map<int, Expiring<nat>>,
    leases: map<Stage, Expiring<nat>>
  )

  function Generation(r: Redis, user: int): nat {
    if user in r.generations then r.generations[user] else 0
  }

  /** The job belongs to the recipient's present generation. */
  predicate Current(r: Redis, j: Job) {
    Generation(r, j.event.recipient) == j.generation
  }

  predicate Allowed(r: Redis, j: Job) {
    j.event.recipient !in r.deleted && Current(r, j)
  }

  predicate HasMark(r: Redis, s: Stage, m: Mark) {
    s in r.marks && r.now < r.marks[s].expires && r.marks[s].value == m
  }

  predicate IsEnqueued(r: Redis, e: Event) {
    e in r.enqueued && r.now < r.enqueued[e]
  }

  /** GET on the in-flight counter; a missing key reads 0. */
  function Inflight(r: Redis, user: int): nat {
    if user in r.inflight && r.now < r.inflight[user].expires then r.inflight[user].value else 0
  }

  predicate Holds(r: Redis, s: Stage, token: nat) {
    s in r.leases && r.now < r.leases[s].expires && r.leases[s].value == token
  }

  predicate LeaseFree(r: Redis, s: Stage) {
    s in r.leases ==> r.leases[s].expires <= r.now
  }

  // ---- Streams --------------------------------------------------------------------------------

  function Add(r: Redis, j: Job): Redis {
    r.(entries := r.entries[r.lastId + 1 := j], lastId := r.lastId + 1)
  }

  function Ack(r: Redis, id: nat): Redis {
    r.(pending := r.pending - {id})
  }

  /** The entry XREADGROUP '>' hands out next. */
  predicate NextUnread(r: Redis, id: nat) {
    id in r.entries && r.cursor < id && forall k :: k in r.entries && r.cursor < k ==> id <= k
  }

  function Read(r: Redis, id: nat, consumer: nat): Redis {
    r.(cursor := id, pending := r.pending[id := consumer])
  }

  /** XAUTOCLAIM of one pending id: it changes hands, or is forgotten if the entry was deleted. */
  function Claim(r: Redis, id: nat, consumer: nat): Redis {
    if id in r.entries then r.(pending := r.pending[id := consumer]) else Ack(r, id)
  }

  lemma ClaimFrame(r: Redis, id: nat, consumer: nat)
    ensures Claim(r, id, consumer) == r.(pending := Claim(r, id, consumer).pending)
  {
    if id in r.entries {
      assert Claim(r, id, consumer) == r.(pending := r.pending[id := consumer]);
    } else {
      assert Claim(r, id, consumer) == r.(pending := r.pending - {id});
    }
    hide Claim;
  }

  ghost function Ids(r: Redis): set<int> {
    set id: nat | id in r.entries
  }

  /** XTRIM MINID at the trimming floor of the single delivery group. */
  function Trim(r: Redis, floor: nat): Redis {
    r.(entries := map id | id in r.entries && floor <= id :: r.entries[id])
  }

  predicate IsFloor(r: Redis, floor: nat) {
    && floor <= r.cursor
    && (forall id :: id in r.pending ==> floor <= id)
    && (floor == r.cursor || floor in r.pending)
  }

  // ---- Enqueue, pop, dead letters ---------------------------------------------------------------

  /** The script's three tests: not deleted, same generation, not enqueued within the replay horizon. */
  predicate Enqueues(r: Redis, e: Event, generation: nat) {
    e.recipient !in r.deleted && Generation(r, e.recipient) == generation && !IsEnqueued(r, e)
  }

  /** First stage to the stream, the two others to the delayed set unless the post is stale, and the marker. */
  function Enqueued(r: Redis, e: Event, generation: nat, stale: bool, clock: int): Redis {
    r.(entries := r.entries[r.lastId + 1 := Job(e, 1, generation)],
       lastId := r.lastId + 1,
       delayed := if stale then r.delayed
                  else r.delayed[Job(e, 2, generation) := clock + DELAY_2][Job(e, 3, generation) := clock + DELAY_3],
       enqueued := r.enqueued[e := r.now + REPLAY_HORIZON])
  }

  /** ZRANGEBYSCORE -inf..max LIMIT 0 limit. */
  predicate IsDue(delayed: map<Job, int>, max: int, limit: nat, due: seq<Job>) {
    && |due| <= limit
    && (forall i, k :: 0 <= i < k < |due| ==> due[i] != due[k])
    && (forall i :: 0 <= i < |due| ==> due[i] in delayed && delayed[due[i]] <= max)
    && (forall i, j :: 0 <= i < |due| && j in delayed && j !in due ==> delayed[due[i]] <= delayed[j])
    && (|due| < limit ==> forall j :: j in delayed && delayed[j] <= max ==> j in due)
  }

  function PopOne(r: Redis, j: Job): Redis {
    r.(entries := if Allowed(r, j) then r.entries[r.lastId + 1 := j] else r.entries,
       lastId := if Allowed(r, j) then r.lastId + 1 else r.lastId,
       delayed := r.delayed - {j})
  }

  function Pop(r: Redis, due: seq<Job>): Redis
    decreases |due|
  {
    if due == [] then r else Pop(PopOne(r, due[0]), due[1..])
  }

  /** The recipient is not marked deleted, and the job carries the generation that is his now, 0 if none was ever set. */
  predicate Admitted(r: Redis, j: Job) {
    var u := j.event.recipient;
    u !in r.deleted && j.generation == if u in r.generations then r.generations[u] else 0
  }

  /** `moved` are the places, in order, of those among `due` whose recipients are registered. */
  ghost predicate Places(r: Redis, due: seq<Job>, moved: seq<nat>) {
    && (forall a, b :: 0 <= a < b < |moved| ==> moved[a] < moved[b])
    && (forall i :: 0 <= i < |moved| ==> moved[i] < |due|)
    && (forall k :: 0 <= k < |due| ==> (k in moved <==> Admitted(r, due[k])))
  }

  predicate EntryIs(r: Redis, id: nat, j: Job) {
    id in r.entries && r.entries[id] == j
  }

  /** Each of them has become one new entry, in their order; there is no other new entry, and the old ones stay. */
  ghost predicate NewEntries(r: Redis, r': Redis, due: seq<Job>, moved: seq<nat>)
    requires forall i :: 0 <= i < |moved| ==> moved[i] < |due|
  {
    && r'.lastId == r.lastId + |moved|
    && (forall i {:trigger moved[i]} :: 0 <= i < |moved| ==> EntryIs(r', r.lastId + 1 + i, due[moved[i]]))
    && (forall id :: id <= r.lastId || r'.lastId < id ==>
          (id in r'.entries <==> id in r.entries) && (id in r.entries ==> r'.entries[id] == r.entries[id]))
  }

  /** Exactly the due members have left the delayed set. */
  predicate LeftDelayed(r: Redis, r': Redis, due: seq<Job>) {
    && (forall j :: j in r'.delayed ==> j in r.delayed && j !in due && r'.delayed[j] == r.delayed[j])
    && (forall j :: j in r.delayed && j !in due ==> j in r'.delayed)
  }

  /** The members `due` have left the delayed set. Those of registered recipients, at the places `moved`, have each become
      one new entry, in their order; the others have none; everything else is as before. */
  ghost predicate Moves(r: Redis, r': Redis, due: seq<Job>, moved: seq<nat>) {
    && Places(r, due, moved) && NewEntries(r, r', due, moved) && LeftDelayed(r, r', due)
    && r' == r.(entries := r'.entries, lastId := r'.lastId, delayed := r'.delayed)
  }

  lemma {:induction false} PopLast(r: Redis, due: seq<Job>, j: Job)
    ensures Pop(r, due + [j]) == PopOne(Pop(r, due), j)
    decreases |due|
  {
    if due == [] {
      assert [j][1..] == [] && due + [j] == [j];
    } else {
      assert (due + [j])[1..] == due[1..] + [j];
      PopLast(PopOne(r, due[0]), due[1..], j);
    }
  }

  lemma PlacesOneMore(r: Redis, due: seq<Job>, moved: seq<nat>, j: Job)
    requires Places(r, due, moved)
    ensures Places(r, due + [j], if Admitted(r, j) then moved + [|due|] else moved)
  {
    var moved' := if Admitted(r, j) then moved + [|due|] else moved;
    forall k | 0 <= k < |due + [j]| ensures k in moved' <==> Admitted(r, (due + [j])[k]) {
      if k == |due| {
        assert k !in moved;
      } else {
        assert k in moved' <==> k in moved;
      }
    }
  }

  lemma EntriesOneMore(r: Redis, r1: Redis, due: seq<Job>, moved: seq<nat>, j: Job)
    requires Places(r, due, moved) && NewEntries(r, r1, due, moved)
    requires r1.deleted == r.deleted && r1.generations == r.generations
    ensures var moved' := if Admitted(r, j) then moved + [|due|] else moved;
      (forall i :: 0 <= i < |moved'| ==> moved'[i] < |due + [j]|) && NewEntries(r, PopOne(r1, j), due + [j], moved')
  {
    PoppedOne(r1, j);
    assert Admitted(r, j) <==> Admitted(r1, j);
    hide PopOne, Admitted, Places, NewEntries;
    if Admitted(r, j) {
      OneEntryMore(r, r1, PopOne(r1, j), due, moved, j);
    } else {
      NoEntryMore(r, r1, PopOne(r1, j), due, moved, j);
    }
  }

  lemma PoppedOne(r: Redis, j: Job)
    ensures var r' := PopOne(r, j);
      if Admitted(r, j) then r'.lastId == r.lastId + 1 && r'.entries == r.entries[r.lastId + 1 := j]
      else r'.lastId == r.lastId && r'.entries == r.entries
  {
  }

  lemma NoEntryMore(r: Redis, r1: Redis, r2: Redis, due: seq<Job>, moved: seq<nat>, j: Job)
    requires Places(r, due, moved) && NewEntries(r, r1, due, moved)
    requires r2.lastId == r1.lastId && r2.entries == r1.entries
    ensures forall i :: 0 <= i < |moved| ==> moved[i] < |due + [j]|
    ensures NewEntries(r, r2, due + [j], moved)
  {
    forall i {:trigger moved[i]} | 0 <= i < |moved|
      ensures EntryIs(r2, r.lastId + 1 + i, (due + [j])[moved[i]])
    {
      assert EntryIs(r1, r.lastId + 1 + i, due[moved[i]]);
    }
  }

  lemma OneEntryMore(r: Redis, r1: Redis, r2: Redis, due: seq<Job>, moved: seq<nat>, j: Job)
    requires Places(r, due, moved) && NewEntries(r, r1, due, moved)
    requires r2.lastId == r1.lastId + 1 && r2.entries == r1.entries[r1.lastId + 1 := j]
    ensures forall i :: 0 <= i < |moved + [|due|]| ==> (moved + [|due|])[i] < |due + [j]|
    ensures NewEntries(r, r2, due + [j], moved + [|due|])
  {
    var moved', due' := moved + [|due|], due + [j];
    forall i {:trigger moved'[i]} | 0 <= i < |moved'|
      ensures EntryIs(r2, r.lastId + 1 + i, due'[moved'[i]])
    {
      if i < |moved| {
        assert moved'[i] == moved[i] && due'[moved[i]] == due[moved[i]];
        assert EntryIs(r1, r.lastId + 1 + i, due[moved[i]]);
      } else {
        assert moved'[i] == |due| && due'[|due|] == j;
      }
    }
    forall id | id <= r.lastId || r2.lastId < id
      ensures (id in r2.entries <==> id in r.entries) && (id in r.entries ==> r2.entries[id] == r.entries[id])
    {
      assert id != r1.lastId + 1;
      assert id in r1.entries <==> id in r.entries;
    }
  }

  /** What the script does, member by member, comes to this. */
  lemma {:induction false} PopMoves(r: Redis, due: seq<Job>) returns (moved: seq<nat>)
    ensures Moves(r, Pop(r, due), due, moved)
    decreases |due|
  {
    if due == [] {
      moved := [];
    } else {
      var init, j := due[..|due| - 1], due[|due| - 1];
      assert due == init + [j];
      moved := PopMoves(r, init);
      var r1 := Pop(r, init);
      PopLast(r, init, j);
      PlacesOneMore(r, init, moved, j);
      EntriesOneMore(r, r1, init, moved, j);
      DelayedOneMore(r, r1, init, j);
      hide Places, NewEntries, LeftDelayed;
      moved := if Admitted(r, j) then moved + [|init|] else moved;
    }
  }

  lemma DelayedOneMore(r: Redis, r1: Redis, due: seq<Job>, j: Job)
    requires LeftDelayed(r, r1, due)
    ensures LeftDelayed(r, PopOne(r1, j), due + [j])
  {
  }

  function SetMark(r: Redis, s: Stage, m: Mark): Redis {
    r.(marks := r.marks[s := Expiring(m, r.now + MARK_LIFE)])
  }

  function StoreDeadLetter(r: Redis, id: nat, j: Job): Redis {
    r.(deadLetters := if Allowed(r, j) then r.deadLetters + [j] else r.deadLetters,
       marks := if Allowed(r, j) then r.marks[StageOf(j) := Expiring(Failed, r.now + MARK_LIFE)] else r.marks,
       pending := r.pending - {id},
       retries := r.retries - {id})
  }

  /** SET stage mark and XACK in one MULTI. */
  function MarkAndAck(r: Redis, id: nat, s: Stage, m: Mark): Redis {
    Ack(SetMark(r, s, m), id)
  }

  /** ZADD of the payload and XACK in one MULTI. */
  function Requeue(r: Redis, id: nat, j: Job): Redis {
    Ack(r.(delayed := r.delayed[j := r.now + REQUEUE_DELAY]), id)
  }

  function Attempts(r: Redis, id: nat): nat {
    if id in r.retries then r.retries[id] else 0
  }

  function CountRetry(r: Redis, id: nat): Redis {
    r.(retries := r.retries[id := Attempts(r, id) + 1])
  }

  // ---- Privacy fence ----------------------------------------------------------------------------

  function Fence(r: Redis, user: int, generation: nat): Redis {
    r.(deleted := r.deleted + {user}, generations := r.generations[user := generation])
  }

  predicate Begins(r: Redis, user: int, generation: nat) {
    user !in r.deleted && Generation(r, user) == generation
  }

  function Begin(r: Redis, user: int): Redis {
    r.(inflight := r.inflight[user := Expiring(Inflight(r, user) + 1, r.now + INFLIGHT_LIFE)])
  }

  function End(r: Redis, user: int): Redis {
    r.(inflight := if Inflight(r, user) <= 1 then r.inflight - {user}
                   else r.inflight[user := Expiring(Inflight(r, user) - 1, r.inflight[user].expires)])
  }

  /** Giving a reservation back lowers the counter by one, or clears it. */
  lemma EndLowers(r: Redis, u: int)
    requires Inflight(r, u) > 1
    ensures Inflight(End(r, u), u) == Inflight(r, u) - 1
  {
  }

  lemma EndClears(r: Redis, u: int)
    requires Inflight(r, u) <= 1
    ensures Inflight(End(r, u), u) == 0
  {
  }

  lemma EndElsewhere(r: Redis, u: int, v: int)
    requires v != u
    ensures Inflight(End(r, u), v) == Inflight(r, v)
  {
  }

  lemma EndKeeps(r: Redis, u: int, v: int)
    ensures Generation(End(r, u), v) == Generation(r, v)
  {
  }

  function Register(r: Redis, user: int): Redis {
    r.(deleted := r.deleted - {user})
  }

  // ---- Stage leases -----------------------------------------------------------------------------

  predicate CanRenew(r: Redis, id: nat, s: Stage, consumer: nat, token: nat) {
    && id in r.pending && r.pending[id] == consumer
    && (LeaseFree(r, s) || Holds(r, s, token))
  }

  function Renew(r: Redis, s: Stage, token: nat): Redis {
    r.(leases := r.leases[s := Expiring(token, r.now + LEASE_LIFE)])
  }

  function Release(r: Redis, s: Stage, token: nat): Redis {
    r.(leases := if Holds(r, s, token) then r.leases - {s} else r.leases)
  }
}
