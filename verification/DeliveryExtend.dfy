/** How a run goes on: from any reachable state a job that may be sent can be taken as far as its send, and on to its
    mark, whatever the other processes have left behind. A delayed job waits until it is due and is moved to the stream;
    the entries before it are read and left pending; if its stage is leased, the holder crashes and the lease is
    released; then a fresh operation takes the entry through every look at the keys to its reservation. Each of these is
    a lemma from a run to a longer run, which says what of the world is left as it was. */
module DeliveryExtend {
  import opened DeliveryState
  import opened DeliveryRun
  import opened DeliveryInvariant
  import opened DeliverySteps
  import opened DeliveryTheorems

  /** Everything the environment can answer in favour of a send. */
  const Favourable := Answers(false, true, false, false, true, Delivered)

  lemma Extend(run: seq<World>, acts: seq<Act>, a: Act) returns (run': seq<World>, acts': seq<Act>)
    requires IsRun(run, acts) && Enabled(run[|acts|], a)
    ensures IsRun(run', acts') && Extends(run, acts, run', acts')
    ensures |acts'| == |acts| + 1 && acts'[|acts|] == a && run'[|acts'|] == After(run[|acts|], a)
  {
    hide After, Enabled;
    run', acts' := run + [After(run[|acts|], a)], acts + [a];
  }

  predicate Extends(run: seq<World>, acts: seq<Act>, run': seq<World>, acts': seq<Act>) {
    run <= run' && acts <= acts'
  }

  lemma OneLook(run: seq<World>, acts: seq<Act>, t: nat, op: Op, next: Point) returns (run': seq<World>, acts': seq<Act>)
    requires IsRun(run, acts) && t in run[|acts|].ops && run[|acts|].ops[t] == op
    requires Looks(op.point) && Active(run[|acts|], op) && Look(run[|acts|].r, op, Favourable) == next
    ensures IsRun(run', acts') && Extends(run, acts, run', acts')
    ensures run'[|acts'|] == run[|acts|].(ops := run[|acts|].ops[t := op.(point := next)])
  {
    hide Look;
    run', acts' := Extend(run, acts, Advance(t, Favourable));
  }

  /** What lets an operation that has just begun get as far as its reservation. */
  ghost predicate Ready(w: World, t: nat) {
    && t in w.ops && w.ops[t].point == ReadGeneration && !w.ops[t].reserved && Active(w, w.ops[t])
    && Allowed(w.r, w.ops[t].job) && w.r.now - w.ops[t].job.event.posted <= FRESHNESS
    && !HasMark(w.r, StageOf(w.ops[t].job), Sent) && 1 <= w.ops[t].job.step
    && (w.ops[t].job.step > 1 ==> HasMark(w.r, Stage(w.ops[t].job.event, w.ops[t].job.step - 1), Sent))
    && CanRenew(w.r, w.ops[t].id, StageOf(w.ops[t].job), w.ops[t].consumer, t)
  }

  function At(w: World, t: nat, p: Point): World
    requires t in w.ops
  {
    w.(ops := w.ops[t := w.ops[t].(point := p)])
  }

  lemma Step(run: seq<World>, acts: seq<Act>, w: World, t: nat, p: Point, next: Point) returns (run': seq<World>, acts': seq<Act>)
    requires IsRun(run, acts) && t in w.ops && run[|acts|] == At(w, t, p) && Active(w, w.ops[t]) && Looks(p)
    requires Look(w.r, w.ops[t].(point := p), Favourable) == next
    ensures IsRun(run', acts') && Extends(run, acts, run', acts') && run'[|acts'|] == At(w, t, next)
  {
    hide Look;
    run', acts' := OneLook(run, acts, t, w.ops[t].(point := p), next);
    assert At(w, t, p).ops[t := w.ops[t].(point := next)] == w.ops[t := w.ops[t].(point := next)];
  }

  /** From the own-mark check of a repeat to the blocked flag: no all-clear, the previous stage sent, night, no mute. */
  lemma ToBlocked(run: seq<World>, acts: seq<Act>, w: World, t: nat) returns (run': seq<World>, acts': seq<Act>)
    requires IsRun(run, acts) && Ready(w, t) && run[|acts|] == At(w, t, ReadOwnMark)
    ensures IsRun(run', acts') && Extends(run, acts, run', acts') && run'[|acts'|] == At(w, t, ReadBlocked)
  {
    hide IsRun, At;
    if w.ops[t].job.step > 1 {
      run', acts' := Step(run, acts, w, t, ReadOwnMark, ReadClear);
      run', acts' := Step(run', acts', w, t, ReadClear, ReadPrior);
      run', acts' := Step(run', acts', w, t, ReadPrior, ReadNight);
      run', acts' := Step(run', acts', w, t, ReadNight, ReadBlocked);
    } else {
      run', acts' := Step(run, acts, w, t, ReadOwnMark, ReadBlocked);
    }
  }

  function Guarded(w: World, t: nat): World
    requires t in w.ops
  {
    w.(r := Renew(w.r, StageOf(w.ops[t].job), t), ops := w.ops[t := w.ops[t].(renewed := w.r.now)])
  }

  lemma GuardStep(run: seq<World>, acts: seq<Act>, w: World, t: nat) returns (run': seq<World>, acts': seq<Act>)
    requires IsRun(run, acts) && Ready(w, t) && run[|acts|] == At(w, t, Reguard)
    ensures IsRun(run', acts') && Extends(run, acts, run', acts') && run'[|acts'|] == At(Guarded(w, t), t, RecheckContent)
  {
    run', acts' := Extend(run, acts, Advance(t, Favourable));
    assert run'[|acts'|] == RenewOp(At(w, t, Reguard), t, RecheckContent);
    assert run'[|acts'|].ops == At(Guarded(w, t), t, RecheckContent).ops;
  }

  lemma ToOwnMark(run: seq<World>, acts: seq<Act>, t: nat) returns (run': seq<World>, acts': seq<Act>)
    requires IsRun(run, acts) && Ready(run[|acts|], t)
    ensures IsRun(run', acts') && Extends(run, acts, run', acts') && run'[|acts'|] == At(run[|acts|], t, ReadOwnMark)
  {
    var w := run[|acts|];
    assert At(w, t, ReadGeneration).ops == w.ops;
    hide IsRun, At;
    run', acts' := Step(run, acts, w, t, ReadGeneration, ReadDeleted);
    run', acts' := Step(run', acts', w, t, ReadDeleted, ReadAge);
    run', acts' := Step(run', acts', w, t, ReadAge, ReadOwnMark);
  }

  lemma ToGuard(run: seq<World>, acts: seq<Act>, w: World, t: nat) returns (run': seq<World>, acts': seq<Act>)
    requires IsRun(run, acts) && Ready(w, t) && run[|acts|] == At(w, t, ReadBlocked)
    ensures IsRun(run', acts') && Extends(run, acts, run', acts') && run'[|acts'|] == At(w, t, Reguard)
  {
    hide IsRun, At;
    run', acts' := Step(run, acts, w, t, ReadBlocked, AwaitSlot);
    run', acts' := Step(run', acts', w, t, AwaitSlot, Reguard);
  }

  /** An operation that is ready gets to its reservation. */
  lemma ToBegin(run: seq<World>, acts: seq<Act>, t: nat) returns (run': seq<World>, acts': seq<Act>)
    requires IsRun(run, acts) && Ready(run[|acts|], t)
    ensures IsRun(run', acts') && Extends(run, acts, run', acts')
    ensures run'[|acts'|] == At(Guarded(run[|acts|], t), t, BeginSend)
  {
    var w := run[|acts|];
    hide IsRun, At, Guarded, Ready;
    run', acts' := ToOwnMark(run, acts, t);
    run', acts' := ToBlocked(run', acts', w, t);
    run', acts' := ToGuard(run', acts', w, t);
    run', acts' := GuardStep(run', acts', w, t);
    run', acts' := LastStep(run', acts', w, t);
  }

  lemma LastStep(run: seq<World>, acts: seq<Act>, w: World, t: nat) returns (run': seq<World>, acts': seq<Act>)
    requires IsRun(run, acts) && Ready(w, t) && run[|acts|] == At(Guarded(w, t), t, RecheckContent)
    ensures IsRun(run', acts') && Extends(run, acts, run', acts') && run'[|acts'|] == At(Guarded(w, t), t, BeginSend)
  {
    hide IsRun, At;
    run', acts' := Step(run, acts, Guarded(w, t), t, RecheckContent, BeginSend);
  }

  /** The world after consumer 1 was given the next entry and its operation `t` has got to its reservation. */
  ghost predicate Reserving(w: World, w': World, id: nat, t: nat) {
    && id in w.h.log && t in w'.ops && w'.ops[t].point == BeginSend && w'.ops[t].job == w.h.log[id] && w'.ops[t].id == id
    && !w'.ops[t].reserved && Active(w', w'.ops[t])
    && w'.ops.Keys == w.ops.Keys + {t} && (forall k :: k in w.ops ==> w'.ops[k] == w.ops[k]) && w'.deletions == w.deletions
    && w'.h == w.h.(tokens := w.h.tokens + {t})
    && w'.r == w.r.(cursor := id, pending := w.r.pending[id := 1], leases := w'.r.leases)
    && OtherLeases(w, w', StageOf(w.h.log[id]))
  }

  ghost predicate OtherLeases(w: World, w': World, s: Stage) {
    forall z :: z != s ==> (z in w'.r.leases <==> z in w.r.leases) && (z in w.r.leases ==> w'.r.leases[z] == w.r.leases[z])
  }

  /** The next entry can be worked on by a fresh operation. */
  ghost predicate Deliverable(w: World, id: nat, t: nat) {
    && NextUnread(w.r, id) && id in w.h.log && t !in w.h.tokens && t !in w.ops
    && LeaseFree(w.r, StageOf(w.h.log[id])) && Allowed(w.r, w.h.log[id])
    && w.r.now - w.h.log[id].event.posted <= FRESHNESS && 1 <= w.h.log[id].step
    && !HasMark(w.r, StageOf(w.h.log[id]), Sent)
    && (w.h.log[id].step > 1 ==> HasMark(w.r, Stage(w.h.log[id].event, w.h.log[id].step - 1), Sent))
  }

  lemma TakeNext(run: seq<World>, acts: seq<Act>, id: nat, t: nat) returns (run': seq<World>, acts': seq<Act>)
    requires IsRun(run, acts) && Deliverable(run[|acts|], id, t)
    ensures IsRun(run', acts') && Extends(run, acts, run', acts') && Ready(run'[|acts'|], t)
    ensures run'[|acts'|] == Started(run[|acts|].(r := Read(run[|acts|].r, id, 1)), t, id, 1)
  {
    run', acts' := Extend(run, acts, ReadNew(id, 1));
    run', acts' := Extend(run', acts', StartOp(t, id, 1));
  }

  /** In any reachable state a fresh repeat gets as far as its reservation on any live mark that the previous stage was
      sent, whichever generation wrote it. */
  lemma MarkLetsThrough(run: seq<World>, acts: seq<Act>, id: nat, t: nat) returns (run': seq<World>, acts': seq<Act>)
    requires IsRun(run, acts) && Deliverable(run[|acts|], id, t)
    ensures IsRun(run', acts') && Extends(run, acts, run', acts') && Reserving(run[|acts|], run'[|acts'|], id, t)
  {
    run', acts' := TakeNext(run, acts, id, t);
    var w1 := run'[|acts'|];
    run', acts' := ToBegin(run', acts', t);
    ReservingNow(run[|acts|], w1, run'[|acts'|], id, t);
  }

  lemma ReservingNow(w: World, w1: World, w': World, id: nat, t: nat)
    requires Deliverable(w, id, t) && w1 == Started(w.(r := Read(w.r, id, 1)), t, id, 1) && w' == At(Guarded(w1, t), t, BeginSend)
    ensures Reserving(w, w', id, t)
  {
  }

  /** The send at its reservation is over and successful: stage marked, entry acknowledged, reservation given back. */
  ghost predicate Completed(w: World, w': World, t: nat)
    requires t in w.ops
  {
    var j, id := w.ops[t].job, w.ops[t].id;
    && w'.ops.Keys == w.ops.Keys - {t} && w'.deletions == w.deletions
    && w'.r == w.r.(marks := w.r.marks[StageOf(j) := Expiring(Sent, w.r.now + MARK_LIFE)],
                    pending := w.r.pending - {id}, inflight := w'.r.inflight)
    && Inflight(w'.r, j.event.recipient) == 0
    && w'.h == w.h.(closed := w'.h.closed, marked := w.h.marked[j := Sent], sentBy := w.h.sentBy + {j},
                    reservations := w'.h.reservations)
  }

  predicate MayComplete(w: World, t: nat) {
    && t in w.ops && w.ops[t].point == BeginSend && !w.ops[t].reserved && Active(w, w.ops[t])
    && Allowed(w.r, w.ops[t].job) && Inflight(w.r, w.ops[t].job.event.recipient) == 0
  }

  lemma SendIt(run: seq<World>, acts: seq<Act>, t: nat) returns (run': seq<World>, acts': seq<Act>)
    requires IsRun(run, acts) && MayComplete(run[|acts|], t)
    ensures IsRun(run', acts') && Extends(run, acts, run', acts')
    ensures run'[|acts'|] == At(Begun(run[|acts|], t), t, Settle(MarkSent))
  {
    var w := run[|acts|];
    run', acts' := Extend(run, acts, Advance(t, Favourable));
    assert run'[|acts'|] == Begun(w, t);
    assert At(Begun(w, t), t, Sending).ops == Begun(w, t).ops;
    hide IsRun, At;
    run', acts' := Step(run', acts', Begun(w, t), t, Sending, Settle(MarkSent));
  }

  function Settled(w: World, t: nat): World
    requires t in w.ops
  {
    SettleEntry(Leave(w, t), w.ops[t].id, w.ops[t].job, MarkSent)
  }

  lemma Complete(run: seq<World>, acts: seq<Act>, t: nat) returns (run': seq<World>, acts': seq<Act>)
    requires IsRun(run, acts) && MayComplete(run[|acts|], t)
    ensures IsRun(run', acts') && Extends(run, acts, run', acts') && Completed(run[|acts|], run'[|acts'|], t)
  {
    var w := run[|acts|];
    run', acts' := SendIt(run, acts, t);
    var w1 := run'[|acts'|];
    run', acts' := SettleIt(run', acts', w, t);
    run', acts' := EndIt(run', acts', w, t);
  }

  lemma SettleIt(run: seq<World>, acts: seq<Act>, w: World, t: nat) returns (run': seq<World>, acts': seq<Act>)
    requires IsRun(run, acts) && MayComplete(w, t) && run[|acts|] == At(Begun(w, t), t, Settle(MarkSent))
    ensures IsRun(run', acts') && Extends(run, acts, run', acts')
    ensures run'[|acts'|] == Settled(At(Begun(w, t), t, Settle(MarkSent)), t)
  {
    run', acts' := Extend(run, acts, Advance(t, Favourable));
  }

  lemma EndIt(run: seq<World>, acts: seq<Act>, w: World, t: nat) returns (run': seq<World>, acts': seq<Act>)
    requires IsRun(run, acts) && MayComplete(w, t) && run[|acts|] == Settled(At(Begun(w, t), t, Settle(MarkSent)), t)
    ensures IsRun(run', acts') && Extends(run, acts, run', acts') && Completed(w, run'[|acts'|], t)
  {
    var w1 := run[|acts|];
    SettledFacts(w, w1, t);
    EndAdvances(w1, t);
    EndedFacts(w, w1, t);
    hide Settled, Begun, At, Ended, AdvanceOp, Marked, Completed, MayComplete;
    run', acts' := Extend(run, acts, Advance(t, Favourable));
  }

  lemma EndAdvances(w: World, t: nat)
    requires t in w.ops && w.ops[t].point.EndSend?
    ensures Enabled(w, Advance(t, Favourable)) && After(w, Advance(t, Favourable)) == Ended(w, t)
  {
    hide Look, RenewOp, SettleEntry;
  }

  /** Between the mark and the return of the reservation. */
  ghost predicate Marked(w: World, w1: World, t: nat)
    requires t in w.ops
  {
    var j, id := w.ops[t].job, w.ops[t].id;
    && t in w1.ops && w1.ops[t].point.EndSend? && w1.ops[t].job == j && w1.ops.Keys == w.ops.Keys && w1.deletions == w.deletions
    && t in w1.h.reservations && w1.h.reservations[t].begun == w.r.now
    && w1.r == w.r.(marks := w.r.marks[StageOf(j) := Expiring(Sent, w.r.now + MARK_LIFE)],
                    pending := w.r.pending - {id}, inflight := w1.r.inflight)
    && Inflight(w1.r, j.event.recipient) == 1
    && w1.h == w.h.(closed := w1.h.closed, marked := w.h.marked[j := Sent], sentBy := w.h.sentBy + {j},
                    reservations := w1.h.reservations)
  }

  lemma SettledFacts(w: World, w1: World, t: nat)
    requires MayComplete(w, t) && w1 == Settled(At(Begun(w, t), t, Settle(MarkSent)), t)
    ensures Marked(w, w1, t)
  {
  }

  lemma EndedFacts(w: World, w1: World, t: nat)
    requires t in w.ops && Marked(w, w1, t)
    ensures Completed(w, Ended(w1, t), t)
  {
    EndClears(w1.r, w.ops[t].job.event.recipient);
  }

  // ---- The two runs --------------------------------------------------------------------------------------------

  // ---- Where single runs begin -------------------------------------------------------------------------------------

  const POST := Event(1, 1, 7, 0)

  function Beginning(): World {
    World(Redis(0, map[], 0, 0, map[], map[], [], map[], map[], map[], {}, map[], map[], map[]), map[], map[],
          History(map[], {}, map[], map[], map[], {}, {}, map[], map[], {}, {}))
  }

  // ---- From anywhere to a job's send -----------------------------------------------------------------------------

  /** Only the clock, the queue, the leases and the operations have changed: no mark, no recipient's key, no counter. */
  ghost predicate Keeps(w: World, w': World) {
    && w.r.now <= w'.r.now && w'.deletions == w.deletions
    && w'.r == w.r.(now := w'.r.now, entries := w'.r.entries, lastId := w'.r.lastId, cursor := w'.r.cursor,
                    pending := w'.r.pending, delayed := w'.r.delayed, leases := w'.r.leases)
    && w'.h == w.h.(log := w'.h.log, closed := w'.h.closed, tokens := w'.h.tokens) && w.h.tokens <= w'.h.tokens
  }

  /** The entries, the delayed jobs and the log are also as before. */
  ghost predicate KeepsQueue(w: World, w': World) {
    && Keeps(w, w') && w'.r.now == w.r.now && w'.r.entries == w.r.entries && w'.r.lastId == w.r.lastId
    && w'.r.delayed == w.r.delayed
    && w'.h == w.h.(tokens := w'.h.tokens)
  }

  lemma {:induction false} SomeNat(s: set<nat>) returns (n: nat)
    ensures n !in s && forall k :: k in s ==> k < n
    decreases |s|
  {
    if x :| x in s {
      var m := SomeNat(s - {x});
      n := if x < m then m else x + 1;
      assert forall k :: k in s ==> k == x || k in s - {x};
    } else {
      n := 0;
    }
  }

  lemma {:induction false} Listed<T>(s: set<T>) returns (list: seq<T>)
    ensures |list| == |s| && (forall x :: x in s <==> x in list)
    ensures forall i, k :: 0 <= i < k < |list| ==> list[i] != list[k]
    decreases |s|
  {
    if x :| x in s {
      var rest := Listed(s - {x});
      list := [x] + rest;
      assert forall y :: y in s <==> y == x || y in s - {x};
      assert forall i :: 0 < i < |list| ==> list[i] == rest[i - 1] && list[i] in s - {x};
    } else {
      list := [];
    }
  }

  /** The least unread entry. */
  lemma {:induction false} LeastUnread(r: Redis, ids: set<nat>) returns (id: nat)
    requires ids != {} && forall k :: k in ids <==> k in r.entries && r.cursor < k
    ensures NextUnread(r, id)
  {
    var n := Least(ids);
    id := n;
  }

  lemma {:induction false} Least(ids: set<nat>) returns (n: nat)
    requires ids != {}
    ensures n in ids && forall k :: k in ids ==> n <= k
    decreases |ids|
  {
    n :| n in ids;
    var rest := ids - {n};
    assert forall k :: k in ids ==> k == n || k in rest;
    if rest != {} {
      var m := Least(rest);
      n := if n < m then n else m;
    }
  }

  /** The entries before `id` are read, and stay pending. */
  lemma {:induction false} ReadUpTo(run: seq<World>, acts: seq<Act>, id: nat) returns (run': seq<World>, acts': seq<Act>)
    requires IsRun(run, acts) && id in run[|acts|].r.entries && run[|acts|].r.cursor < id
    ensures IsRun(run', acts') && Extends(run, acts, run', acts')
    ensures KeepsQueue(run[|acts|], run'[|acts'|]) && NextUnread(run'[|acts'|].r, id)
    ensures run'[|acts'|].ops == run[|acts|].ops && run'[|acts'|].r.leases == run[|acts|].r.leases
    decreases id - run[|acts|].r.cursor
  {
    var w := run[|acts|];
    var unread := set k | k in w.r.entries && w.r.cursor < k;
    assert id in unread;
    var k := LeastUnread(w.r, unread);
    if k == id {
      run', acts' := run, acts;
    } else {
      run', acts' := Extend(run, acts, ReadNew(k, 1));
      run', acts' := ReadUpTo(run', acts', id);
    }
  }

  /** Whoever holds the lease crashes, and the lease is released. */
  lemma FreeLease(run: seq<World>, acts: seq<Act>, s: Stage) returns (run': seq<World>, acts': seq<Act>)
    requires IsRun(run, acts)
    ensures IsRun(run', acts') && Extends(run, acts, run', acts') && KeepsQueue(run[|acts|], run'[|acts'|])
    ensures LeaseFree(run'[|acts'|].r, s) && run'[|acts'|].r.cursor == run[|acts|].r.cursor
    ensures LeaseFree(run[|acts|].r, s) ==> run'[|acts'|].ops == run[|acts|].ops
    ensures OtherLeases(run[|acts|], run'[|acts'|], s) && forall k :: k in run'[|acts'|].ops ==> k in run[|acts|].ops
  {
    run', acts' := run, acts;
    var w := run[|acts|];
    if !LeaseFree(w.r, s) {
      var t := w.r.leases[s].value;
      if t in w.ops {
        run', acts' := Extend(run', acts', Crash(t));
      }
      run', acts' := Extend(run', acts', ReleaseLease(s, t));
    }
  }

  /** Stage `j` may be sent at instant `at`. */
  ghost predicate MaySendAt(w: World, j: Job, at: int) {
    && Allowed(w.r, j) && at - j.event.posted <= FRESHNESS && !HasMark(w.r, StageOf(j), Sent) && 1 <= j.step
    && (j.step > 1 ==> HasMark(w.r, Stage(j.event, j.step - 1), Sent) && at < w.r.marks[Stage(j.event, j.step - 1)].expires)
  }

  /** From any reachable state an unread entry gets to its reservation. */
  lemma EntryReaches(run: seq<World>, acts: seq<Act>, id: nat) returns (run': seq<World>, acts': seq<Act>, t: nat)
    requires IsRun(run, acts) && id in run[|acts|].r.entries && run[|acts|].r.cursor < id
    requires MaySendAt(run[|acts|], run[|acts|].r.entries[id], run[|acts|].r.now)
    ensures IsRun(run', acts') && Extends(run, acts, run', acts')
    ensures KeepsQueue(run[|acts|], run'[|acts'|]) && run'[|acts'|].r.cursor == id && t !in run[|acts|].ops && t !in run[|acts|].h.tokens
    ensures AtReservation(run'[|acts'|], t, id, run[|acts|].r.entries[id])
    ensures LeaseFree(run[|acts|].r, StageOf(run[|acts|].r.entries[id])) ==>
              forall k :: k in run[|acts|].ops ==> k in run'[|acts'|].ops && run'[|acts'|].ops[k] == run[|acts|].ops[k]
    ensures OtherLeases(run[|acts|], run'[|acts'|], StageOf(run[|acts|].r.entries[id]))
  {
    hide After, Enabled;
    var w := run[|acts|];
    run', acts' := ToFront(run, acts, id);
    var w1 := run'[|acts'|];
    t := SomeNat(w1.h.tokens + w.ops.Keys);
    Reachable(run', acts', |acts'|);
    CanDeliver(w, w1, id, t);
    hide Deliverable, Inv, Reserving, NextUnread, MaySendAt;
    run', acts' := MarkLetsThrough(run', acts', id, t);
    ReservingKeeps(w1, run'[|acts'|], id, t);
  }

  lemma ToFront(run: seq<World>, acts: seq<Act>, id: nat) returns (run': seq<World>, acts': seq<Act>)
    requires IsRun(run, acts) && id in run[|acts|].r.entries && run[|acts|].r.cursor < id
    ensures IsRun(run', acts') && Extends(run, acts, run', acts') && KeepsQueue(run[|acts|], run'[|acts'|])
    ensures NextUnread(run'[|acts'|].r, id) && LeaseFree(run'[|acts'|].r, StageOf(run[|acts|].r.entries[id]))
    ensures LeaseFree(run[|acts|].r, StageOf(run[|acts|].r.entries[id])) ==> run'[|acts'|].ops == run[|acts|].ops
    ensures OtherLeases(run[|acts|], run'[|acts'|], StageOf(run[|acts|].r.entries[id]))
    ensures forall k :: k in run'[|acts'|].ops ==> k in run[|acts|].ops
  {
    run', acts' := ReadUpTo(run, acts, id);
    run', acts' := FreeLease(run', acts', StageOf(run[|acts|].r.entries[id]));
  }

  lemma CanDeliver(w: World, w1: World, id: nat, t: nat)
    requires Inv(w1) && KeepsQueue(w, w1) && NextUnread(w1.r, id) && t !in w1.h.tokens && t !in w1.ops
    requires MaySendAt(w, w1.r.entries[id], w.r.now) && LeaseFree(w1.r, StageOf(w1.r.entries[id]))
    ensures Deliverable(w1, id, t) && w1.h.log[id] == w1.r.entries[id]
  {
    EntryLogged(w1, id);
  }

  lemma ReservingKeeps(w: World, w': World, id: nat, t: nat)
    requires Reserving(w, w', id, t)
    ensures KeepsQueue(w, w') && AtReservation(w', t, id, w.h.log[id]) && OtherLeases(w, w', StageOf(w.h.log[id]))
    ensures w'.r.cursor == id && w'.ops.Keys == w.ops.Keys + {t} && forall k :: k in w.ops ==> w'.ops[k] == w.ops[k]
  {
  }

  ghost predicate AtReservation(w: World, t: nat, id: nat, j: Job) {
    && t in w.ops && w.ops[t].point == BeginSend && w.ops[t].job == j && w.ops[t].id == id && !w.ops[t].reserved
    && Active(w, w.ops[t])
  }

  lemma EntryLogged(w: World, id: nat)
    requires Inv(w) && id in w.r.entries
    ensures id in w.h.log && w.h.log[id] == w.r.entries[id] && 0 < id <= w.r.lastId
  {
    assert EntryOk(w, id);
  }

  // ---- Out of the delayed set --------------------------------------------------------------------------------------

  /** Moving due jobs adds entries above the old ones and changes nothing but the queue. */
  ghost predicate Moved(w: World, w': World) {
    && Keeps(w, w') && w'.r.now == w.r.now && w'.r.cursor == w.r.cursor && w.r.lastId <= w'.r.lastId
    && w'.ops == w.ops && w'.r.leases == w.r.leases
    && forall id :: id in w.r.entries ==> id in w'.r.entries && (id <= w.r.lastId ==> w'.r.entries[id] == w.r.entries[id])
  }

  lemma PopOneMoves(w: World, j: Job)
    ensures Moved(w, PopOneJob(w, j))
    ensures Allowed(w.r, j) ==> w.r.lastId + 1 in PopOneJob(w, j).r.entries && PopOneJob(w, j).r.entries[w.r.lastId + 1] == j
  {
  }

  lemma {:induction false} PopMoves(w: World, due: seq<Job>)
    ensures Moved(w, PopJobs(w, due))
    decreases |due|
  {
    if due != [] {
      PopOneMoves(w, due[0]);
      var w1 := PopOneJob(w, due[0]);
      hide PopOneJob;
      PopMoves(w1, due[1..]);
    }
  }

  /** A job that is moved gets an entry of its own. */
  lemma {:induction false} PopPlaces(w: World, due: seq<Job>, j: Job) returns (id: nat)
    requires j in due && Allowed(w.r, j)
    ensures var w' := PopJobs(w, due); id in w'.r.entries && w'.r.entries[id] == j && w.r.lastId < id
    decreases |due|
  {
    PopOneMoves(w, due[0]);
    var w1 := PopOneJob(w, due[0]);
    hide PopOneJob;
    PopMoves(w1, due[1..]);
    if due[0] == j {
      id := w.r.lastId + 1;
    } else {
      id := PopPlaces(w1, due[1..], j);
    }
  }

  lemma MovedMay(w: World, w': World, j: Job, at: int)
    requires MaySendAt(w, j, at) && Keeps(w, w') && w'.r.now <= at
    ensures MaySendAt(w', j, w'.r.now)
  {
  }

  lemma KeepsTrans(w: World, w1: World, w2: World)
    requires Keeps(w, w1) && Keeps(w1, w2)
    ensures Keeps(w, w2)
  {
  }

  /** The instant at which a delayed job can be moved, by a worker whose clock is the server's. */
  function DueAt(w: World, j: Job): int
    requires j in w.r.delayed
  {
    if w.r.now <= w.r.delayed[j] then w.r.delayed[j] else w.r.now
  }

  /** From any reachable state a delayed job is moved to the stream when it is due. */
  lemma Matures(run: seq<World>, acts: seq<Act>, j: Job) returns (run': seq<World>, acts': seq<Act>, id: nat)
    requires IsRun(run, acts) && j in run[|acts|].r.delayed && Allowed(run[|acts|].r, j)
    ensures IsRun(run', acts') && Extends(run, acts, run', acts') && Keeps(run[|acts|], run'[|acts'|])
    ensures var r := run'[|acts'|].r; r.now == DueAt(run[|acts|], j) && id in r.entries && r.entries[id] == j && r.cursor < id
  {
    var w := run[|acts|];
    run', acts' := Extend(run, acts, Tick(DueAt(w, j) - w.r.now));
    var w1 := run'[|acts'|];
    var due := AllDue(w1.r.delayed, w1.r.now);
    id := PopPlaces(w1, due, j);
    PopMoves(w1, due);
    Reachable(run', acts', |acts'|);
    assert w1.r.cursor <= w1.r.lastId;
    hide PopJobs, Inv, IsDue, Allowed;
    run', acts' := Extend(run', acts', PopMature(w1.r.now, |due|, due));
    KeepsTrans(w, w1, run'[|acts'|]);
  }

  lemma AllDue(delayed: map<Job, int>, now: int) returns (due: seq<Job>)
    ensures IsDue(delayed, now, |due|, due) && forall j :: j in delayed && delayed[j] <= now ==> j in due
  {
    due := Listed(set k | k in delayed && delayed[k] <= now);
    assert forall i :: 0 <= i < |due| ==> due[i] in due;
  }

  /** From any reachable state a delayed job that may be sent when it is due gets to its send. */
  lemma DelayedReaches(run: seq<World>, acts: seq<Act>, j: Job) returns (run': seq<World>, acts': seq<Act>, t: nat, id: nat)
    requires IsRun(run, acts) && j in run[|acts|].r.delayed && MaySendAt(run[|acts|], j, DueAt(run[|acts|], j))
    ensures IsRun(run', acts') && Extends(run, acts, run', acts') && Keeps(run[|acts|], run'[|acts'|])
    ensures AtReservation(run'[|acts'|], t, id, j) && run'[|acts'|].r.now == DueAt(run[|acts|], j)
  {
    var w := run[|acts|];
    run', acts', id := Matures(run, acts, j);
    var w1 := run'[|acts'|];
    MovedMay(w, w1, j, DueAt(w, j));
    hide MaySendAt, DueAt;
    run', acts', t := EntryReaches(run', acts', id);
    KeepsTrans(w, w1, run'[|acts'|]);
  }
}
