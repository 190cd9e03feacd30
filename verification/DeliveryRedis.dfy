/** The delivery keys as one mutable server, with a method per script. Each method is proved to have the
    effect that the runs are built from. */
module DeliveryRedis {
  import opened DeliveryState
  import opened Options
  import opened Paging

  /** What a process asks of the server. */
  datatype Command =
    | LookCall
    | EnqueueCall(event: Event, generation: nat, stale: bool, clock: int)
    | PopCall(max: int, limit: nat)
    | AckCall(id: nat)
    | CountCall(id: nat)
    | DeadLetterCall(id: nat, job: Job)
    | MarkCall(id: nat, stage: Stage, mark: Mark)
    | RequeueCall(id: nat, job: Job)
    | FenceCall(user: int, generation: nat)
    | BeginCall(user: int, generation: nat)
    | EndCall(user: int)
    | RenewCall(id: nat, stage: Stage, consumer: nat, token: nat)
    | ReleaseCall(stage: Stage, token: nat)
    | ScrubCall(ids: seq<int>)

  /** One command of this process, and the keys before and after it. */
  datatype Call = Call(command: Command, before: Redis, after: Redis)

  class Server {
    var now: nat
    var entries: map<nat, Job>
    var lastId: nat
    var cursor: nat
    var pending: map<nat, nat>
    var delayed: map<Job, int>
    var deadLetters: seq<Job>
    var retries: map<nat, nat>
    var enqueued: map<Event, nat>
    var marks: map<Stage, Expiring<Mark>>
    var deleted: set<int>
    var generations: map<int, nat>
    var inflight: map<int, Expiring<nat>>
    var leases: map<Stage, Expiring<nat>>
    /** The commands that this process has sent, and the keys as they were left by its last one or by the others. */
    ghost var calls: seq<Call>
    ghost var seen: Redis

    constructor (r: Redis)
      ensures Valid() && State() == r && calls == []
    {
      calls, seen := [], r;
      now, entries, lastId, cursor, pending := r.now, r.entries, r.lastId, r.cursor, r.pending;
      delayed, deadLetters, retries, enqueued, marks := r.delayed, r.deadLetters, r.retries, r.enqueued, r.marks;
      deleted, generations, inflight, leases := r.deleted, r.generations, r.inflight, r.leases;
    }

    /** Nothing but the commands and the other processes changes the keys. */
    ghost predicate Valid()
      reads this
    {
      State() == seen
    }

    ghost method Note(c: Command)
      modifies this`calls, this`seen
      ensures Valid() && calls == old(calls) + [Call(c, old(seen), State())]
    {
      calls := calls + [Call(c, seen, State())];
      seen := State();
    }

    /** The other processes may do anything to the keys. */
    method Interfere()
      requires Valid()
      modifies this
      ensures Valid() && calls == old(calls)
    {
      ChangeKeys();
      seen := State();
    }

    method ChangeKeys()
      modifies this
      ensures calls == old(calls)
    {
      now, entries, lastId, cursor, pending, delayed, deadLetters := *, *, *, *, *, *, *;
      retries, enqueued, marks, deleted, generations, inflight, leases := *, *, *, *, *, *, *;
    }

    /** The keys are read, at one instant. */
    method Look()
      requires Valid()
      modifies this`calls, this`seen
      ensures Valid() && State() == old(State()) && Logged(old(calls), old(State()), LookCall)
    {
      Note(LookCall);
    }

    /** Since `past` one command was sent, which found the keys as `before` and left them as they are now. */
    ghost predicate Logged(past: seq<Call>, before: Redis, c: Command)
      reads this
    {
      calls == past + [Call(c, before, State())]
    }

    function State(): Redis
      reads this
    {
      Redis(now, entries, lastId, cursor, pending, delayed, deadLetters, retries, enqueued, marks,
            deleted, generations, inflight, leases)
    }

    method XAdd(j: Job) returns (id: nat)
      modifies this`entries, this`lastId
      ensures id == old(lastId) + 1 && State() == Add(old(State()), j)
    {
      lastId := lastId + 1;
      id := lastId;
      entries := entries[id := j];
    }

    /** ENQUEUE_ALERT_LUA */
    method EnqueueAlert(e: Event, generation: nat, stale: bool, clock: int) returns (added: int)
      requires Valid()
      modifies this
      ensures Valid() && Logged(old(calls), old(State()), EnqueueCall(e, generation, stale, clock))
      ensures added == if Enqueues(old(State()), e, generation) then 1 else 0
      ensures State() == if added == 1 then Enqueued(old(State()), e, generation, stale, clock) else old(State())
      ensures added == 1 <==>
                && e.recipient !in old(deleted) && !(e in old(enqueued) && now < old(enqueued)[e])
                && generation == if e.recipient in old(generations) then old(generations)[e.recipient] else 0
      ensures added == 1 ==>
                && entries == old(entries)[old(lastId) + 1 := Job(e, 1, generation)] && lastId == old(lastId) + 1
                && enqueued == old(enqueued)[e := now + 30 * 24 * 3600 * 1000]
                && delayed == if stale then old(delayed)
                              else old(delayed)[Job(e, 2, generation) := clock + 60000][Job(e, 3, generation) := clock + 360000]
    {
      added := 0;
      var present := if e.recipient in generations then generations[e.recipient] else 0;
      if e.recipient !in deleted && present == generation && !(e in enqueued && now < enqueued[e]) {
        var id := XAdd(Job(e, 1, generation));
        if !stale {
          delayed := delayed[Job(e, 2, generation) := clock + DELAY_2];
          delayed := delayed[Job(e, 3, generation) := clock + DELAY_3];
        }
        enqueued := enqueued[e := now + REPLAY_HORIZON];
        added := 1;
      }
      Note(EnqueueCall(e, generation, stale, clock));
    }

    /** ZRANGEBYSCORE: repeatedly the due member of least score. */
    method RangeByScore(max: int, limit: nat) returns (due: seq<Job>)
      ensures IsDue(delayed, max, limit, due)
    {
      due := [];
      var rest := set j | j in delayed && delayed[j] <= max;
      while rest != {} && |due| < limit
        invariant |due| <= limit
        invariant forall j :: j in delayed && delayed[j] <= max <==> j in due || j in rest
        invariant forall i, k :: 0 <= i < k < |due| ==> due[i] != due[k]
        invariant forall i, j :: 0 <= i < |due| && j in rest ==> due[i] != j && delayed[due[i]] <= delayed[j]
        decreases |rest|
      {
        LeastScore(delayed, rest);
        var j :| j in rest && forall k :: k in rest ==> delayed[j] <= delayed[k];
        due := due + [j];
        rest := rest - {j};
      }
    }

    static lemma {:induction false} LeastScore(scores: map<Job, int>, jobs: set<Job>)
      requires jobs != {} && jobs <= scores.Keys
      ensures exists j :: j in jobs && forall k :: k in jobs ==> scores[j] <= scores[k]
      decreases |jobs|
    {
      var x :| x in jobs;
      if jobs != {x} {
        LeastScore(scores, jobs - {x});
        var m :| m in jobs - {x} && forall k :: k in jobs - {x} ==> scores[m] <= scores[k];
        var least := if scores[x] < scores[m] then x else m;
        assert least in jobs && forall k :: k in jobs ==> scores[least] <= scores[k];
      }
    }

    /** POP_MATURE_TASKS_LUA: the due members leave the delayed set, and those of a registered recipient's present
        generation enter the stream in their order; `moved` are their places among the due. */
    method PopMatureTasks(max: int, limit: nat) returns (count: nat, ghost due: seq<Job>, ghost moved: seq<nat>)
      requires Valid()
      modifies this
      ensures Valid() && Logged(old(calls), old(State()), PopCall(max, limit))
      ensures IsDue(old(delayed), max, limit, due) && count == |due| <= limit
      ensures forall j :: j in due ==> j in old(delayed) && old(delayed)[j] <= max
      ensures |due| == limit || forall j :: j in old(delayed) && old(delayed)[j] <= max ==> j in due
      ensures forall i, j :: i in due && j in old(delayed) && j !in due ==> old(delayed)[i] <= old(delayed)[j]
      ensures State() == Pop(old(State()), due) && Moves(old(State()), State(), due, moved)
    {
      hide Moves;
      var elements := RangeByScore(max, limit);
      due, count := elements, |elements|;
      moved := PopMoves(State(), due);
      for i := 0 to |elements|
        invariant Pop(old(State()), due) == Pop(State(), elements[i..]) && seen == old(State()) && calls == old(calls)
      {
        var element := elements[i];
        assert elements[i..][0] == element && elements[i..][1..] == elements[i + 1..];
        var generation := if element.event.recipient in generations then generations[element.event.recipient] else 0;
        ghost var before := State();
        if element.event.recipient !in deleted && generation == element.generation {
          var id := XAdd(element);
        }
        delayed := delayed - {element};
        assert State() == PopOne(before, element);
      }
      Note(PopCall(max, limit));
    }

    /** XACK */
    method AckEntry(id: nat)
      requires Valid()
      modifies this
      ensures Valid() && Logged(old(calls), old(State()), AckCall(id))
      ensures State() == Ack(old(State()), id)
    {
      pending := pending - {id};
      Note(AckCall(id));
    }

    /** INCR of the entry's retry counter. */
    method CountAttempt(id: nat) returns (attempts: nat)
      requires Valid()
      modifies this
      ensures Valid() && Logged(old(calls), old(State()), CountCall(id))
      ensures State() == CountRetry(old(State()), id) && attempts == Attempts(State(), id)
      ensures attempts == 1 + (if id in old(retries) then old(retries)[id] else 0) && retries == old(retries)[id := attempts]
    {
      attempts := (if id in retries then retries[id] else 0) + 1;
      retries := retries[id := attempts];
      Note(CountCall(id));
    }

    /** STORE_DLQ_LUA for a payload that parses. */
    method StoreDlq(id: nat, j: Job)
      requires Valid()
      modifies this
      ensures Valid() && Logged(old(calls), old(State()), DeadLetterCall(id, j))
      ensures State() == StoreDeadLetter(old(State()), id, j)
      ensures pending == old(pending) - {id} && retries == old(retries) - {id}
      ensures var u := j.event.recipient;
        if u !in deleted && j.generation == (if u in generations then generations[u] else 0)
        then deadLetters == old(deadLetters) + [j] && marks == old(marks)[StageOf(j) := Expiring(Failed, now + 7 * 24 * 3600 * 1000)]
        else deadLetters == old(deadLetters) && marks == old(marks)
    {
      var generation := if j.event.recipient in generations then generations[j.event.recipient] else 0;
      if j.event.recipient !in deleted && generation == j.generation {
        deadLetters := deadLetters + [j];
        marks := marks[StageOf(j) := Expiring(Failed, now + MARK_LIFE)];
      }
      pending := pending - {id};
      retries := retries - {id};
      Note(DeadLetterCall(id, j));
    }

    /** SET mark, XACK in one transaction. */
    method MarkStage(id: nat, s: Stage, m: Mark)
      requires Valid()
      modifies this
      ensures Valid() && Logged(old(calls), old(State()), MarkCall(id, s, m))
      ensures State() == MarkAndAck(old(State()), id, s, m)
    {
      marks := marks[s := Expiring(m, now + MARK_LIFE)];
      pending := pending - {id};
      Note(MarkCall(id, s, m));
    }

    /** ZADD payload, XACK in one transaction. */
    method RequeueStage(id: nat, j: Job)
      requires Valid()
      modifies this
      ensures Valid() && Logged(old(calls), old(State()), RequeueCall(id, j))
      ensures State() == Requeue(old(State()), id, j)
    {
      delayed := delayed[j := now + REQUEUE_DELAY];
      pending := pending - {id};
      Note(RequeueCall(id, j));
    }

    /** FENCE_DELETION_LUA */
    method FenceDeletion(user: int, generation: nat)
      requires Valid()
      modifies this
      ensures Valid() && Logged(old(calls), old(State()), FenceCall(user, generation))
      ensures State() == Fence(old(State()), user, generation)
      ensures deleted == old(deleted) + {user} && generations == old(generations)[user := generation]
    {
      deleted := deleted + {user};
      generations := generations[user := generation];
      Note(FenceCall(user, generation));
    }

    /** BEGIN_DELIVERY_LUA */
    method BeginDelivery(user: int, generation: nat) returns (reserved: int)
      requires Valid()
      modifies this
      ensures Valid() && Logged(old(calls), old(State()), BeginCall(user, generation))
      ensures reserved == if Begins(old(State()), user, generation) then 1 else 0
      ensures State() == if reserved == 1 then Begin(old(State()), user) else old(State())
      ensures reserved == 1 <==> user !in old(deleted) && generation == if user in old(generations) then old(generations)[user] else 0
      ensures reserved == 1 ==> user in inflight && inflight[user].expires == now + 600 * 1000 &&
                                inflight[user].value == 1 + old(Inflight(State(), user))
    {
      reserved := 0;
      var present := if user in generations then generations[user] else 0;
      if user !in deleted && present == generation {
        var count: nat := if user in inflight && now < inflight[user].expires then inflight[user].value else 0;
        inflight := inflight[user := Expiring(count + 1, now + INFLIGHT_LIFE)];
        reserved := 1;
      }
      Note(BeginCall(user, generation));
    }

    /** END_DELIVERY_LUA */
    method EndDelivery(user: int)
      requires Valid()
      modifies this
      ensures Valid() && Logged(old(calls), old(State()), EndCall(user))
      ensures State() == End(old(State()), user)
      ensures Inflight(State(), user) == if old(Inflight(State(), user)) <= 1 then 0 else old(Inflight(State(), user)) - 1
    {
      var count: nat := if user in inflight && now < inflight[user].expires then inflight[user].value else 0;
      if count <= 1 {
        inflight := inflight - {user};
      } else {
        var left: nat := count - 1;
        inflight := inflight[user := Expiring(left, inflight[user].expires)];
      }
      Note(EndCall(user));
    }

    /** RENEW_DELIVERY_LUA */
    method RenewDelivery(id: nat, s: Stage, consumer: nat, token: nat) returns (renewed: int)
      requires Valid()
      modifies this
      ensures Valid() && Logged(old(calls), old(State()), RenewCall(id, s, consumer, token))
      ensures renewed == if CanRenew(old(State()), id, s, consumer, token) then 1 else 0
      ensures State() == if renewed == 1 then Renew(old(State()), s, token) else old(State())
      ensures renewed == 1 <==>
                && id in old(pending) && old(pending)[id] == consumer
                && (s in old(leases) ==> old(leases)[s].expires <= now || old(leases)[s].value == token)
      ensures renewed == 1 ==> leases == old(leases)[s := Expiring(token, now + 90 * 1000)]
    {
      renewed := 0;
      var taken := s in leases && now < leases[s].expires && leases[s].value != token;
      if id in pending && pending[id] == consumer && !taken {
        leases := leases[s := Expiring(token, now + LEASE_LIFE)];
        pending := pending[id := consumer];
        renewed := 1;
      }
      Note(RenewCall(id, s, consumer, token));
    }

    /** RELEASE_DELIVERY_LUA */
    method ReleaseDelivery(s: Stage, token: nat) returns (released: int)
      requires Valid()
      modifies this
      ensures Valid() && Logged(old(calls), old(State()), ReleaseCall(s, token))
      ensures released == if Holds(old(State()), s, token) then 1 else 0
      ensures State() == Release(old(State()), s, token)
      ensures !Holds(State(), s, token)
      ensures forall z, t :: Holds(old(State()), z, t) && (z != s || t != token) ==> Holds(State(), z, t)
    {
      released := 0;
      if s in leases && now < leases[s].expires && leases[s].value == token {
        leases := leases - {s};
        released := 1;
      }
      Note(ReleaseCall(s, token));
    }

    /** One page of the scrub: the recipient's entries are acknowledged, deleted and their retry keys dropped. */
    method ScrubEntries(user: int, page: seq<int>)
      requires forall k :: k in page ==> 0 <= k
      modifies this`entries, this`pending, this`retries
      ensures State() == Scrubbed(old(State()), user, Elements(page))
    {
      ghost var r0 := State();
      ScrubNothing(r0, user, Elements(page[..0]));
      for i := 0 to |page|
        invariant State() == Scrubbed(r0, user, Elements(page[..i]))
      {
        assert page[i] in page;
        var id: nat := page[i];
        ghost var before := State();
        if id in entries && entries[id].event.recipient == user {
          pending := pending - {id};
          entries := entries - {id};
          retries := retries - {id};
        }
        ScrubOne(before, user, id, State());
        ScrubTwice(r0, user, Elements(page[..i]), {id});
        assert page[..i + 1] == page[..i] + [page[i]];
        assert Elements(page[..i + 1]) == Elements(page[..i]) + {id};
      }
      assert page[..|page|] == page;
    }

    method ScrubPage(user: int, page: seq<int>)
      requires Valid() && forall k :: k in page ==> 0 <= k
      modifies this`entries, this`pending, this`retries, this`calls, this`seen
      ensures Valid() && State() == Scrubbed(old(State()), user, Elements(page))
      ensures Logged(old(calls), old(State()), ScrubCall(page))
    {
      ScrubEntries(user, page);
      Note(ScrubCall(page));
    }

    /** The page beyond the cursor is read and scrubbed. */
    method ScrubNext(user: int, at: Option<int>, ghost r0: Redis, ghost visited: seq<int>) returns (page: seq<int>)
      requires Valid() && Swept(Ids(r0), Ids(r0), at, visited) && State() == Scrubbed(r0, user, Elements(visited))
      modifies this`entries, this`pending, this`retries, this`calls, this`seen
      ensures Valid() && State() == Scrubbed(r0, user, Elements(visited + page))
      ensures page == [] || |page| < SCRUB_PAGE ==> forall k :: k in Ids(r0) ==> k in visited + page
      ensures page != [] ==> Swept(Ids(r0), Ids(r0), Some(page[|page| - 1]), visited + page)
      ensures page != [] ==> Ids(r0) - Elements(visited + page) < Ids(r0) - Elements(visited)
    {
      hide Scrubbed;
      page := TakePage((set id: nat | id in entries), at, SCRUB_PAGE);
      if page == [] {
        LastPage(r0, user, at, visited);
        assert visited + page == visited;
      } else {
        ScrubAdvances(r0, user, at, visited, page);
        ScrubPage(user, page);
        Shrinks(Ids(r0), visited, page);
      }
    }

    /** Remove a recipient's entries from the stream, page after page of at most 500. */
    method ScrubRecipient(user: int)
      requires Valid()
      modifies this`entries, this`pending, this`retries, this`calls, this`seen
      ensures Valid() && State() == Scrubbed(old(State()), user, Ids(old(State())))
      ensures forall id :: id in entries <==> id in old(entries) && old(entries)[id].event.recipient != user
      ensures forall id :: id in pending <==> id in old(pending) && !(id in old(entries) && old(entries)[id].event.recipient == user)
      ensures forall id :: id in retries <==> id in old(retries) && !(id in old(entries) && old(entries)[id].event.recipient == user)
    {
      hide Scrubbed;
      ghost var r0 := State();
      ghost var visited: seq<int> := [];
      var at: Option<int> := None;
      var full := true;
      ScrubNothing(r0, user, Elements(visited));
      while full
        invariant Valid() && Swept(Ids(r0), Ids(r0), at, visited) && State() == Scrubbed(r0, user, Elements(visited))
        invariant !full ==> forall k :: k in Ids(r0) ==> k in visited
        decreases full, Ids(r0) - Elements(visited)
      {
        var page := ScrubNext(user, at, r0, visited);
        assert page == [] ==> visited + page == visited;
        if page == [] { break; }
        full := |page| >= SCRUB_PAGE;
        visited := visited + page;
        at := Some(page[|page| - 1]);
      }
      assert Elements(visited) == Ids(r0);
      ScrubAll(r0, user);
    }
  }

  /** Scrubbing leaves the entries beyond the cursor alone, so the next page is a page of the original stream. */
  lemma ScrubAdvances(r: Redis, user: int, at: Option<int>, visited: seq<int>, page: seq<int>)
    requires Swept(Ids(r), Ids(r), at, visited) && page != []
    requires IsPage(Ids(Scrubbed(r, user, Elements(visited))), at, SCRUB_PAGE, page)
    ensures Swept(Ids(r), Ids(r), Some(page[|page| - 1]), visited + page)
    ensures Scrubbed(Scrubbed(r, user, Elements(visited)), user, Elements(page)) ==
            Scrubbed(r, user, Elements(visited + page))
    ensures page[0] in Ids(r) && page[0] !in visited && page[0] in Elements(visited + page)
    ensures Elements(visited) <= Elements(visited + page)
    ensures |page| < SCRUB_PAGE ==> forall k :: k in Ids(r) ==> k in visited + page
    ensures forall k :: k in page ==> 0 <= k
  {
    SamePage(Ids(Scrubbed(r, user, Elements(visited))), Ids(r), at, SCRUB_PAGE, page);
    PageAdvances(Ids(r), Ids(r), Ids(r), at, SCRUB_PAGE, visited, page);
    ScrubTwice(r, user, Elements(visited), Elements(page));
    assert Elements(visited + page) == Elements(visited) + Elements(page);
    assert page[0] in page;
  }

  lemma Shrinks(ids: set<int>, visited: seq<int>, page: seq<int>)
    requires page != [] && page[0] in ids && page[0] !in visited
    ensures ids - Elements(visited + page) < ids - Elements(visited)
  {
    assert page[0] in visited + page && forall k :: k in visited ==> k in visited + page;
    assert page[0] in ids - Elements(visited) && page[0] !in ids - Elements(visited + page);
  }

  lemma ScrubAll(r: Redis, user: int)
    ensures forall id :: id in Scrubbed(r, user, Ids(r)).entries <==>
              id in r.entries && r.entries[id].event.recipient != user
    ensures var p := Scrubbed(r, user, Ids(r)).pending;
      forall id :: id in p <==> id in r.pending && !(id in r.entries && r.entries[id].event.recipient == user)
    ensures var t := Scrubbed(r, user, Ids(r)).retries;
      forall id :: id in t <==> id in r.retries && !(id in r.entries && r.entries[id].event.recipient == user)
  {
  }

  lemma LastPage(r: Redis, user: int, at: Option<int>, visited: seq<int>)
    requires Swept(Ids(r), Ids(r), at, visited)
    requires IsPage(Ids(Scrubbed(r, user, Elements(visited))), at, SCRUB_PAGE, [])
    ensures forall k :: k in Ids(r) ==> k in visited
  {
  }

  ghost function Elements(s: seq<int>): set<int> {
    set k | k in s
  }

  /** The entries of `user` among `ids`. */
  function Hits(r: Redis, user: int, ids: set<int>): set<nat> {
    set id: nat | id in r.entries && id in ids && r.entries[id].event.recipient == user
  }

  /** Those entries are gone, with their pending records and retry counters. */
  function Scrubbed(r: Redis, user: int, ids: set<int>): Redis {
    r.(entries := r.entries - Hits(r, user, ids), pending := r.pending - Hits(r, user, ids), retries := r.retries - Hits(r, user, ids))
  }

  lemma ScrubNothing(r: Redis, user: int, ids: set<int>)
    requires ids == {}
    ensures Scrubbed(r, user, ids) == r
  {
  }

  lemma ScrubOne(r: Redis, user: int, id: nat, r': Redis)
    requires r' == if id in r.entries && r.entries[id].event.recipient == user
                   then r.(entries := r.entries - {id}, pending := r.pending - {id}, retries := r.retries - {id}) else r
    ensures r' == Scrubbed(r, user, {id})
  {
  }

  /** Scrubbing page by page is scrubbing all the pages at once. */
  lemma ScrubTwice(r: Redis, user: int, first: set<int>, second: set<int>)
    ensures Scrubbed(Scrubbed(r, user, first), user, second) == Scrubbed(r, user, first + second)
  {
  }
}
