/** Why an entry is settled the way it is. */
module DeliveryCauses {
  // Every settling command has its cause in an earlier step of the operation, and every cause leads to its command.

  import opened DeliveryState
  import opened DeliveryRun
  import opened DeliveryInvariant
  import opened DeliveryTheorems
  import opened DeliveryChain

  const WEEK: int := 7 * 24 * 3600 * 1000
  const TEN_MINUTES: int := 10 * 60 * 1000

  function Prior(j: Job): Stage
    requires j.step > 0
  {
    Stage(j.event, j.step - 1)
  }

  predicate LiveMark(r: Redis, s: Stage) {
    s in r.marks && r.now < r.marks[s].expires
  }

  predicate LiveMarkIs(r: Redis, s: Stage, m: Mark) {
    LiveMark(r, s) && r.marks[s].value == m
  }

  predicate TooOldToRepeat(r: Redis, j: Job) {
    r.now - j.event.posted > WEEK || (j.step > 1 && r.now - j.event.posted > TEN_MINUTES)
  }

  predicate OtherGeneration(r: Redis, j: Job) {
    var u := j.event.recipient;
    j.generation != if u in r.generations then r.generations[u] else 0
  }

  /** What the operation may have found, at the point where it looked, for settling its entry in this way. */
  predicate Cause(r: Redis, op: Op, x: Answers, how: Settlement) {
    var j := op.job;
    match how
    case Skip =>
      || (op.point.ReadClear? && x.cleared)
      || (op.point.ReadPrior? && j.step > 0 && LiveMarkIs(r, Prior(j), Skipped))
      || (op.point.ReadNight? && (!x.night || x.muted))
      || (op.point.RecheckContent? && TooOldToRepeat(r, j))
    case DeadLetter =>
      || (op.point.ReadPrior? && j.step > 0 && LiveMarkIs(r, Prior(j), Failed))
      || (op.point.ReadBlocked? && x.blocked)
      || (op.point.Sending? && x.outcome.Permanent?)
      || (op.point.CountFailure? && op.id in r.retries && r.retries[op.id] >= 4)
    case PutBack => op.point.ReadPrior? && (j.step > 0 ==> !LiveMark(r, Prior(j)))
    case MarkSent => op.point.Sending? && x.outcome.Delivered?
    case Drop(Privacy) =>
      || (op.point.ReadGeneration? && OtherGeneration(r, j))
      || (op.point.ReadDeleted? && j.event.recipient in r.deleted)
      || (op.point.BeginSend? && (j.event.recipient in r.deleted || OtherGeneration(r, j)))
    case Drop(OverAge) => op.point.ReadAge? && r.now - j.event.posted > WEEK
    case Drop(AlreadySent) => op.point.ReadOwnMark? && LiveMarkIs(r, StageOf(j), Sent)
    case Drop(Finished(_)) => false
  }

  /** At each point an operation turns to settling its entry in a certain way if and only if it finds the cause. */
  lemma TurnsIff(w: World, t: nat, x: Answers, how: Settlement)
    requires t in w.ops && !w.ops[t].point.Settle?
    ensures var w' := AdvanceOp(w, t, x);
      (t in w'.ops && w'.ops[t].point == Settle(how)) <==> Cause(w.r, w.ops[t], x, how)
  {
    hide Look, Cause;
    var op := w.ops[t];
    if Looks(op.point) {
      assert AdvanceOp(w, t, x).ops[t] == op.(point := Look(w.r, op, x));
      LookIff(w.r, op, x, how);
    } else {
      CallIff(w, t, x, how);
    }
  }

  lemma CallIff(w: World, t: nat, x: Answers, how: Settlement)
    requires t in w.ops && !w.ops[t].point.Settle? && !Looks(w.ops[t].point)
    ensures var w' := AdvanceOp(w, t, x);
      (t in w'.ops && w'.ops[t].point == Settle(how)) <==> Cause(w.r, w.ops[t], x, how)
  {
    hide Look;
  }

  lemma LookIff(r: Redis, op: Op, x: Answers, how: Settlement)
    requires Looks(op.point)
    ensures Look(r, op, x) == Settle(how) <==> Cause(r, op, x, how)
  {
  }

  // ---- How an operation got where it is ------------------------------------------------------------------------

  /** The same operation, perhaps at another point and renewed since. */
  predicate SameOp(o: Op, o': Op) {
    o'.id == o.id && o'.job == o.job && o'.consumer == o.consumer && o'.started == o.started
  }

  /** It is where it was, or has its reservation left to give back. */
  predicate Stays(o: Op, o': Op) {
    o'.reserved == o.reserved && (o'.point == o.point || (o'.point.EndSend? && o.reserved))
  }

  lemma LookMovesOn(r: Redis, op: Op, x: Answers)
    requires Looks(op.point)
    ensures Look(r, op, x) != op.point
  {
  }

  lemma AdvanceMovesOn(w: World, t: nat, x: Answers)
    requires t in w.ops && t in AdvanceOp(w, t, x).ops
    ensures SameOp(w.ops[t], AdvanceOp(w, t, x).ops[t]) && AdvanceOp(w, t, x).ops[t].point != w.ops[t].point
  {
    var op := w.ops[t];
    if Looks(op.point) {
      assert AdvanceOp(w, t, x).ops[t] == op.(point := Look(w.r, op, x));
      LookMovesOn(w.r, op, x);
    } else {
      hide Look;
    }
  }

  /** A step leaves the operation where it is, or makes it give its reservation back, or is its own next step. */
  lemma StepPoint(w: World, a: Act, t: nat)
    requires Enabled(w, a) && t in After(w, a).ops
    ensures if t !in w.ops then After(w, a).ops[t].point.ReadGeneration?
            else
              && SameOp(w.ops[t], After(w, a).ops[t])
              && (Stays(w.ops[t], After(w, a).ops[t]) || (a.Advance? && a.token == t))
  {
    if t in w.ops && !ActsFor(a, t) {
      OpStays(w, a, t);
      hide After, Enabled;
    } else if a.Advance? {
      AdvanceOnly(w, a.token, a.answers, t);
      assert After(w, a) == AdvanceOp(w, a.token, a.answers);
      if t in w.ops {
        AdvanceMovesOn(w, t, a.answers);
      }
      hide After, AdvanceOp;
    } else {
      OtherPoint(w, a, t);
    }
  }

  lemma AdvanceOnly(w: World, t: nat, x: Answers, other: nat)
    requires t in w.ops && other in AdvanceOp(w, t, x).ops
    ensures other in w.ops
  {
    hide Look;
  }

  lemma OtherPoint(w: World, a: Act, t: nat)
    requires Enabled(w, a) && t in After(w, a).ops && !a.Advance? && (t !in w.ops || ActsFor(a, t))
    ensures if t !in w.ops then After(w, a).ops[t].point.ReadGeneration?
            else SameOp(w.ops[t], After(w, a).ops[t]) && Stays(w.ops[t], After(w, a).ops[t])
  {
    hide AdvanceOp;
    if a.PopMature? {
      PopKeepsOps(w, a.due);
    }
  }

  /** The step at which the operation came to the point where it is. */
  lemma {:induction false} ArrivedAt(run: seq<World>, acts: seq<Act>, k: nat, t: nat) returns (i: nat)
    requires IsRun(run, acts) && k < |run| && t in run[k].ops
    requires !run[k].ops[t].point.ReadGeneration? && !run[k].ops[t].point.EndSend?
    ensures i < k && acts[i].Advance? && acts[i].token == t && t in run[i].ops && SameOp(run[i].ops[t], run[k].ops[t])
    ensures var w' := AdvanceOp(run[i], t, acts[i].answers); t in w'.ops && w'.ops[t].point == run[k].ops[t].point
    ensures CanAdvance(run[i], t) && run[i].ops[t].point != run[k].ops[t].point
    decreases k
  {
    assert k > 0;
    var w, a := run[k - 1], acts[k - 1];
    assert Enabled(w, a) && run[k] == After(w, a);
    StepPoint(w, a, t);
    if a.Advance? && a.token == t {
      i := k - 1;
      AdvanceMovesOn(w, t, a.answers);
    } else {
      hide After, Enabled;
      i := ArrivedAt(run, acts, k - 1, t);
    }
  }

  /** An operation that settles its entry in a certain way found the cause in an earlier step. */
  lemma SettlementHasCause(run: seq<World>, acts: seq<Act>, k: nat, t: nat) returns (i: nat)
    requires IsRun(run, acts) && k < |run| && t in run[k].ops && run[k].ops[t].point.Settle?
    ensures i < k && acts[i].Advance? && acts[i].token == t && t in run[i].ops && SameOp(run[i].ops[t], run[k].ops[t])
    ensures CanAdvance(run[i], t) && Cause(run[i].r, run[i].ops[t], acts[i].answers, run[k].ops[t].point.how)
  {
    i := ArrivedAt(run, acts, k, t);
    if run[i].ops[t].point.Settle? {
      SettlingEnds(run[i], t, acts[i].answers);
    } else {
      TurnsIff(run[i], t, acts[i].answers, run[k].ops[t].point.how);
    }
  }

  lemma SettlingEnds(w: World, t: nat, x: Answers)
    requires t in w.ops && w.ops[t].point.Settle? && t in AdvanceOp(w, t, x).ops
    ensures AdvanceOp(w, t, x).ops[t].point.EndSend?
  {
  }

  function SettlementFor(m: Mark): Settlement {
    match m
    case Sent => MarkSent
    case Skipped => Skip
    case Failed => DeadLetter
  }

  /** Every mark that is written has its cause. Sent: Telegram accepted the message. Skipped: an all-clear, a skipped
      stage before it, daytime or a mute, or a post too old at the recheck. Failed: a failed stage before it, a blocked
      recipient, a permanent refusal, or the fifth counted failure. */
  lemma MarkHasCause(run: seq<World>, acts: seq<Act>, k: nat, s: Stage) returns (i: nat, t: nat)
    requires IsRun(run, acts) && k < |acts| && s in run[k + 1].r.marks
    requires s in run[k].r.marks ==> run[k + 1].r.marks[s] != run[k].r.marks[s]
    ensures i < k && acts[i].Advance? && acts[i].token == t && t in run[i].ops && StageOf(run[i].ops[t].job) == s
    ensures CanAdvance(run[i], t) && Cause(run[i].r, run[i].ops[t], acts[i].answers, SettlementFor(run[k + 1].r.marks[s].value))
  {
    var w, a := run[k], acts[k];
    assert Enabled(w, a) && run[k + 1] == After(w, a);
    if Settling(w, a) {
      t := a.token;
      StepMarks(w, a);
      hide After, Enabled, Cause;
      i := SettlementHasCause(run, acts, k, t);
    } else if a.DropMark? {
      DropMarkEffect(w, a.stage);
      hide After, Enabled;
    } else {
      StepSameMarks(w, a);
      hide After, Enabled;
    }
  }

  // ---- What the settling command does to the keys -----------------------------------------------------------------

  /** The entry is acknowledged; besides, a mark for a week, a dead letter with a failed mark if the recipient is registered
      under the job's generation, or the job delayed by ten seconds. Nothing else changes. */
  predicate SettledKeys(r: Redis, r': Redis, id: nat, j: Job, how: Settlement) {
    var acked := r.(pending := r.pending - {id});
    var registered := j.event.recipient !in r.deleted && !OtherGeneration(r, j);
    match how
    case Drop(_) => r' == acked
    case Skip => r' == acked.(marks := r.marks[StageOf(j) := Expiring(Skipped, (r.now + WEEK) as nat)])
    case MarkSent => r' == acked.(marks := r.marks[StageOf(j) := Expiring(Sent, (r.now + WEEK) as nat)])
    case PutBack => r' == acked.(delayed := r.delayed[j := r.now + 10000])
    case DeadLetter =>
      if registered
      then r' == acked.(retries := r.retries - {id}, deadLetters := r.deadLetters + [j],
                        marks := r.marks[StageOf(j) := Expiring(Failed, (r.now + WEEK) as nat)])
      else r' == acked.(retries := r.retries - {id})
  }

  lemma SettlementKeys(w: World, a: Act)
    requires Enabled(w, a) && Settling(w, a)
    ensures var op := w.ops[a.token]; SettledKeys(w.r, After(w, a).r, op.id, op.job, op.point.how)
  {
    var op := w.ops[a.token];
    var w1 := Leave(w, a.token);
    assert After(w, a) == SettleEntry(w1, op.id, op.job, op.point.how) && w1.r == w.r;
    EntryKeys(w1, op.id, op.job, op.point.how);
  }

  lemma EntryKeys(w: World, id: nat, j: Job, how: Settlement)
    ensures SettledKeys(w.r, SettleEntry(w, id, j, how).r, id, j, how)
  {
    if how.DeadLetter? {
      DeadLetterKeys(w, id, j);
    }
  }

  lemma DeadLetterKeys(w: World, id: nat, j: Job)
    ensures SettledKeys(w.r, SettleEntry(w, id, j, DeadLetter).r, id, j, DeadLetter)
  {
    var w1 := w.(r := StoreDeadLetter(w.r, id, j));
    assert NoteMark(w1, j, Failed).r == w1.r && Close(w1, j, Privacy).r == w1.r;
  }

  // ---- A cause leads to its settlement ------------------------------------------------------------------------------

  /** Between two of its own steps the operation stays where it is, unless it is made to give its reservation back. */
  lemma {:induction false} StaysUntilNext(run: seq<World>, acts: seq<Act>, i: nat, k: nat, t: nat)
    requires IsRun(run, acts) && i < k < |run| && t in run[i].ops && t in run[k].ops && acts[i].Advance? && acts[i].token == t
    requires forall m :: i < m < k ==> !(acts[m].Advance? && acts[m].token == t)
    ensures t in run[i + 1].ops && SameOp(run[i].ops[t], run[k].ops[t])
    ensures Stays(run[i + 1].ops[t], run[k].ops[t])
    decreases k - i
  {
    hide After, Enabled;
    assert Enabled(run[k - 1], acts[k - 1]) && run[k] == After(run[k - 1], acts[k - 1]);
    StepPoint(run[k - 1], acts[k - 1], t);
    if k > i + 1 {
      TokenStays(run, acts, i, k - 1, t);
      StaysUntilNext(run, acts, i, k - 1, t);
    }
  }

  /** A token is not used again once its operation is over. */
  lemma TokenStays(run: seq<World>, acts: seq<Act>, i: nat, k: nat, t: nat)
    requires IsRun(run, acts) && i <= k && k + 1 < |run| && t in run[i].ops && t in run[k + 1].ops
    ensures t in run[k].ops
  {
    Reachable(run, acts, i);
    assert OpOk(run[i], t);
    RunRemembers(run, acts, i, k);
    assert Enabled(run[k], acts[k]) && run[k + 1] == After(run[k], acts[k]);
    if t !in run[k].ops {
      NewToken(run[k], acts[k], t);
    }
  }

  lemma NewToken(w: World, a: Act, t: nat)
    requires Enabled(w, a) && t !in w.ops && t in After(w, a).ops
    ensures t !in w.h.tokens
  {
    if a.Advance? {
      AdvanceOnly(w, a.token, a.answers, t);
    } else if a.PopMature? {
      PopKeepsOps(w, a.due);
    } else {
      hide AdvanceOp;
    }
  }

  /** An operation that finds a cause settles its entry accordingly in its next step, if it takes one: unless it has been
      cancelled or displaced, and only gives its reservation back. */
  lemma CauseSettles(run: seq<World>, acts: seq<Act>, i: nat, k: nat, t: nat, how: Settlement)
    requires IsRun(run, acts) && i < k < |acts| && t in run[i].ops && !run[i].ops[t].point.Settle?
    requires acts[i].Advance? && acts[i].token == t && Cause(run[i].r, run[i].ops[t], acts[i].answers, how)
    requires acts[k].Advance? && acts[k].token == t && t in run[k].ops
    requires forall m :: i < m < k ==> !(acts[m].Advance? && acts[m].token == t)
    ensures run[k].ops[t].point.EndSend? ==> run[k].ops[t].reserved
    ensures !run[k].ops[t].point.EndSend? ==>
              SettledKeys(run[k].r, run[k + 1].r, run[i].ops[t].id, run[i].ops[t].job, how)
  {
    TurnsIff(run[i], t, acts[i].answers, how);
    assert Enabled(run[i], acts[i]) && run[i + 1] == AdvanceOp(run[i], t, acts[i].answers);
    assert Enabled(run[k], acts[k]) && run[k + 1] == After(run[k], acts[k]);
    hide AdvanceOp, Cause, SettledKeys;
    StaysUntilNext(run, acts, i, k, t);
    if run[k].ops[t].point.Settle? {
      SettlementKeys(run[k], acts[k]);
    } else {
      Reachable(run, acts, k);
      assert OpOk(run[k], t);
    }
  }

  lemma NotReservedYet(run: seq<World>, acts: seq<Act>, i: nat, t: nat)
    requires IsRun(run, acts) && i < |acts| && acts[i].Advance? && acts[i].token == t && t in run[i].ops
    requires run[i].ops[t].point.ReadPrior?
    ensures t in run[i + 1].ops && !run[i + 1].ops[t].reserved
  {
    Reachable(run, acts, i);
    assert OpOk(run[i], t);
    assert Enabled(run[i], acts[i]) && run[i + 1] == AdvanceOp(run[i], t, acts[i].answers);
    hide Look;
  }

  /** A repeat that finds no live mark of the stage before goes back to the delayed set for ten seconds, and is neither
      marked nor dead-lettered. */
  lemma RequeuedWithoutMark(run: seq<World>, acts: seq<Act>, i: nat, k: nat, t: nat)
    requires IsRun(run, acts) && i < k < |acts| && t in run[i].ops && run[i].ops[t].point.ReadPrior?
    requires acts[i].Advance? && acts[i].token == t && run[i].ops[t].job.step > 1
    requires !LiveMark(run[i].r, Prior(run[i].ops[t].job))
    requires acts[k].Advance? && acts[k].token == t && t in run[k].ops
    requires forall m :: i < m < k ==> !(acts[m].Advance? && acts[m].token == t)
    ensures var r, j, id := run[k].r, run[i].ops[t].job, run[i].ops[t].id;
      run[k + 1].r == r.(delayed := r.delayed[j := r.now + 10000], pending := r.pending - {id})
  {
    hide After, Enabled, AdvanceOp;
    assert Cause(run[i].r, run[i].ops[t], acts[i].answers, PutBack);
    NotReservedYet(run, acts, i, t);
    StaysUntilNext(run, acts, i, k, t);
    CauseSettles(run, acts, i, k, t, PutBack);
  }

  // ---- What an operation saw before it sends ------------------------------------------------------------------------

  /** The points on the way to a send, in order. */
  function Route(step: nat): seq<Point> {
    if step > 1
    then [ReadGeneration, ReadDeleted, ReadAge, ReadOwnMark, ReadClear, ReadPrior, ReadNight, ReadBlocked, AwaitSlot,
          Reguard, RecheckContent, BeginSend]
    else [ReadGeneration, ReadDeleted, ReadAge, ReadOwnMark, ReadBlocked, AwaitSlot, Reguard, RecheckContent, BeginSend]
  }

  /** What is found there by an operation that goes on. */
  predicate Passes(r: Redis, t: nat, op: Op, x: Answers) {
    var j := op.job;
    match op.point
    case ReadGeneration => !OtherGeneration(r, j)
    case ReadDeleted => j.event.recipient !in r.deleted
    case ReadAge => r.now - j.event.posted <= WEEK
    case ReadOwnMark => !LiveMarkIs(r, StageOf(j), Sent)
    case ReadClear => !x.cleared
    case ReadPrior => j.step > 0 && LiveMarkIs(r, Prior(j), Sent)
    case ReadNight => x.night && !x.muted
    case ReadBlocked => !x.blocked
    case AwaitSlot => x.slot
    case Reguard =>
      && op.id in r.pending && r.pending[op.id] == op.consumer
      && (StageOf(j) in r.leases ==> r.leases[StageOf(j)].expires <= r.now || r.leases[StageOf(j)].value == t)
    case RecheckContent => !TooOldToRepeat(r, j)
    case _ => false
  }

  /** A first stage does not look for an all-clear, a stage before it, or the night. */
  predicate OnRoute(op: Op) {
    1 <= op.job.step && (op.job.step == 1 ==> !op.point.ReadClear? && !op.point.ReadPrior? && !op.point.ReadNight?)
  }

  lemma {:induction false} StaysOnRoute(run: seq<World>, acts: seq<Act>, k: nat, t: nat)
    requires IsRun(run, acts) && k < |run| && t in run[k].ops && 1 <= run[k].ops[t].job.step
    ensures OnRoute(run[k].ops[t])
    decreases k
  {
    if !OnRoute(run[k].ops[t]) {
      var i := ArrivedAt(run, acts, k, t);
      StaysOnRoute(run, acts, i, t);
      StepOnRoute(run[i], t, acts[i].answers);
    }
  }

  lemma StepOnRoute(w: World, t: nat, x: Answers)
    requires t in w.ops && OnRoute(w.ops[t]) && t in AdvanceOp(w, t, x).ops
    ensures OnRoute(AdvanceOp(w, t, x).ops[t])
  {
    if Looks(w.ops[t].point) {
      assert AdvanceOp(w, t, x).ops[t] == w.ops[t].(point := Look(w.r, w.ops[t], x));
    } else {
      hide Look;
    }
  }

  /** An operation comes to a point of the route exactly from the point before it, having passed there. */
  lemma RouteStepIff(w: World, t: nat, x: Answers, n: nat)
    requires t in w.ops && OnRoute(w.ops[t]) && 0 < n < |Route(w.ops[t].job.step)|
    ensures var w', route := AdvanceOp(w, t, x), Route(w.ops[t].job.step);
      (t in w'.ops && w'.ops[t].point == route[n]) <==> (w.ops[t].point == route[n - 1] && Passes(w.r, t, w.ops[t], x))
  {
    hide Look, Passes;
    var op := w.ops[t];
    if Looks(op.point) {
      assert AdvanceOp(w, t, x).ops[t] == op.(point := Look(w.r, op, x));
      RouteLookIff(w.r, t, op, x, n);
    } else {
      RouteCallIff(w, t, x, n);
    }
  }

  lemma RouteLookIff(r: Redis, t: nat, op: Op, x: Answers, n: nat)
    requires Looks(op.point) && OnRoute(op) && 0 < n < |Route(op.job.step)|
    ensures Look(r, op, x) == Route(op.job.step)[n] <==> (op.point == Route(op.job.step)[n - 1] && Passes(r, t, op, x))
  {
    if op.job.step > 1 {
      RepeatLookIff(r, t, op, x, n);
    } else {
      FirstLookIff(r, t, op, x, n);
    }
  }

  lemma RepeatLookIff(r: Redis, t: nat, op: Op, x: Answers, n: nat)
    requires Looks(op.point) && OnRoute(op) && op.job.step > 1 && 0 < n < |Route(op.job.step)|
    ensures Look(r, op, x) == Route(op.job.step)[n] <==> (op.point == Route(op.job.step)[n - 1] && Passes(r, t, op, x))
  {
  }

  lemma FirstLookIff(r: Redis, t: nat, op: Op, x: Answers, n: nat)
    requires Looks(op.point) && OnRoute(op) && op.job.step == 1 && 0 < n < |Route(op.job.step)|
    ensures Look(r, op, x) == Route(op.job.step)[n] <==> (op.point == Route(op.job.step)[n - 1] && Passes(r, t, op, x))
  {
  }

  /** Of the other points only the ownership guard leads on along the route. */
  lemma RouteCallIff(w: World, t: nat, x: Answers, n: nat)
    requires t in w.ops && !Looks(w.ops[t].point) && 1 <= w.ops[t].job.step && 0 < n < |Route(w.ops[t].job.step)|
    ensures var w', route := AdvanceOp(w, t, x), Route(w.ops[t].job.step);
      (t in w'.ops && w'.ops[t].point == route[n]) <==> (w.ops[t].point == route[n - 1] && Passes(w.r, t, w.ops[t], x))
  {
    hide Look;
    var p, route := w.ops[t].point, Route(w.ops[t].job.step);
    GuardOnRoute(w.ops[t].job.step, n);
    if p.Reguard? {
      GuardIff(w, t, x);
    } else {
      CallLeaves(w, t, x);
    }
    hide AdvanceOp, Route;
  }

  lemma GuardOnRoute(step: nat, n: nat)
    requires 0 < n < |Route(step)|
    ensures Route(step)[n - 1].Reguard? <==> Route(step)[n].RecheckContent?
    ensures Looks(Route(step)[n - 1]) || Route(step)[n - 1].Reguard?
    ensures !Route(step)[n].Sending? && !Route(step)[n].Settle? && !Route(step)[n].EndSend?
  {
  }

  lemma GuardIff(w: World, t: nat, x: Answers)
    requires t in w.ops && w.ops[t].point.Reguard?
    ensures var w' := AdvanceOp(w, t, x);
      && (t in w'.ops ==> w'.ops[t].point.RecheckContent? || w'.ops[t].point.EndSend?)
      && ((t in w'.ops && w'.ops[t].point.RecheckContent?) <==> Passes(w.r, t, w.ops[t], x))
  {
    assert AdvanceOp(w, t, x) == RenewOp(w, t, RecheckContent);
    hide AdvanceOp;
  }

  lemma CallLeaves(w: World, t: nat, x: Answers)
    requires t in w.ops && !Looks(w.ops[t].point) && !w.ops[t].point.Reguard?
    ensures var w' := AdvanceOp(w, t, x);
      t in w'.ops ==> w'.ops[t].point.Sending? || w'.ops[t].point.Settle? || w'.ops[t].point.EndSend?
  {
    hide Look, RenewOp;
  }

  /** At step `i` operation `t` passes point `p` for job `j`. */
  predicate PassesAt(run: seq<World>, acts: seq<Act>, i: nat, t: nat, p: Point, j: Job) {
    && i < |acts| && i < |run| && acts[i].Advance? && acts[i].token == t && t in run[i].ops
    && run[i].ops[t].point == p && run[i].ops[t].job == j && Passes(run[i].r, t, run[i].ops[t], acts[i].answers)
  }

  /** An operation on the route has passed every point before, one after the other. */
  lemma {:induction false} RouteTaken(run: seq<World>, acts: seq<Act>, k: nat, t: nat, n: nat) returns (at: seq<nat>)
    requires IsRun(run, acts) && k < |run| && t in run[k].ops && 1 <= run[k].ops[t].job.step
    requires n < |Route(run[k].ops[t].job.step)| && run[k].ops[t].point == Route(run[k].ops[t].job.step)[n]
    ensures |at| == n && (forall a, b :: 0 <= a < b < n ==> at[a] < at[b]) && (forall a :: 0 <= a < n ==> at[a] < k)
    ensures forall a :: 0 <= a < n ==> PassesAt(run, acts, at[a], t, Route(run[k].ops[t].job.step)[a], run[k].ops[t].job)
    decreases n
  {
    hide After, Enabled, AdvanceOp, Passes;
    at := [];
    if n > 0 {
      var i := ArrivedAt(run, acts, k, t);
      StaysOnRoute(run, acts, i, t);
      RouteStepIff(run[i], t, acts[i].answers, n);
      at := RouteTaken(run, acts, i, t, n - 1);
      hide Route;
      at := at + [i];
    }
  }

  /** Before a send begins the operation has found, in this order: the job's generation and a recipient not deleted, a post
      no older than a week, no mark that the stage was sent; for a repeat no all-clear, the stage before marked sent,
      night and no mute; then a recipient who has not blocked the bot, a rate slot, its own entry and lease, and a post
      that is still fresh enough. */
  lemma BeginSaw(run: seq<World>, acts: seq<Act>, k: nat, j: Job) returns (at: seq<nat>)
    requires IsRun(run, acts) && k < |acts| && BeginsSend(run[k], acts[k], j)
    ensures 1 <= j.step && |at| == |Route(j.step)| - 1 && (forall a, b :: 0 <= a < b < |at| ==> at[a] < at[b])
    ensures forall a :: 0 <= a < |at| ==> at[a] < k && PassesAt(run, acts, at[a], acts[k].token, Route(j.step)[a], j)
  {
    Reachable(run, acts, k);
    JobAccepted(run[k], acts[k].token);
    at := RouteTaken(run, acts, k, acts[k].token, |Route(j.step)| - 1);
  }

  // ---- Counting failures ---------------------------------------------------------------------------------------------

  /** The step counts a failure of entry `id`. */
  predicate CountsFailure(w: World, a: Act, id: nat) {
    a.Advance? && a.token in w.ops && w.ops[a.token].point.CountFailure? && w.ops[a.token].id == id
  }

  /** The step drops the entry's counter: it expires, or goes with the dead letter. */
  predicate DropsCount(w: World, a: Act, id: nat) {
    || a == ForgetRetry(id)
    || (a.Advance? && a.token in w.ops && w.ops[a.token].point == Settle(DeadLetter) && w.ops[a.token].id == id)
  }

  function Counted(r: Redis, id: nat): nat {
    if id in r.retries then r.retries[id] else 0
  }

  lemma {:induction false} PopSameRetries(w: World, due: seq<Job>)
    ensures PopJobs(w, due).r.retries == w.r.retries
    decreases |due|
  {
    if due != [] {
      PopSameRetries(PopOneJob(w, due[0]), due[1..]);
    }
  }

  lemma FailureCounts(w: World, t: nat, x: Answers)
    requires t in w.ops && w.ops[t].point.CountFailure?
    ensures AdvanceOp(w, t, x).r.retries == w.r.retries[w.ops[t].id := Counted(w.r, w.ops[t].id) + 1]
  {
    hide Look, SettleEntry, RenewOp;
    var w1 := w.(r := CountRetry(w.r, w.ops[t].id));
    assert Leave(w1, t).r == w1.r;
  }

  lemma LookSameRetries(w: World, t: nat, x: Answers)
    requires t in w.ops && Looks(w.ops[t].point)
    ensures AdvanceOp(w, t, x).r == w.r
  {
    hide Look, SettleEntry, RenewOp;
  }

  lemma SlotSameRetries(r: Redis, u: int)
    ensures Begin(r, u).retries == r.retries && End(r, u).retries == r.retries
  {
  }

  lemma SendSameRetries(w: World, t: nat, x: Answers)
    requires t in w.ops && (w.ops[t].point.BeginSend? || w.ops[t].point.EndSend?)
    ensures AdvanceOp(w, t, x).r.retries == w.r.retries
  {
    hide Look, SettleEntry, RenewOp, Begin, End, Begins;
    SlotSameRetries(w.r, w.ops[t].job.event.recipient);
    if w.ops[t].point.EndSend? {
      assert AdvanceOp(w, t, x) == Ended(w, t);
    }
  }

  lemma RenewSameRetries(w: World, t: nat, next: Point)
    requires t in w.ops
    ensures RenewOp(w, t, next).r.retries == w.r.retries
  {
  }

  lemma CallSameRetries(w: World, t: nat, x: Answers)
    requires t in w.ops && !w.ops[t].point.Settle? && !w.ops[t].point.CountFailure?
    ensures AdvanceOp(w, t, x).r.retries == w.r.retries
  {
    if w.ops[t].point.Reguard? {
      RenewSameRetries(w, t, RecheckContent);
      assert AdvanceOp(w, t, x) == RenewOp(w, t, RecheckContent);
    } else {
      hide AdvanceOp;
      if Looks(w.ops[t].point) {
        LookSameRetries(w, t, x);
      } else {
        SendSameRetries(w, t, x);
      }
    }
  }

  lemma CallRetries(w: World, t: nat, x: Answers, id: nat)
    requires t in w.ops && !w.ops[t].point.Settle?
    ensures Counted(AdvanceOp(w, t, x).r, id) ==
            if w.ops[t].point.CountFailure? && w.ops[t].id == id then Counted(w.r, id) + 1 else Counted(w.r, id)
  {
    hide AdvanceOp;
    if w.ops[t].point.CountFailure? {
      FailureCounts(w, t, x);
    } else {
      CallSameRetries(w, t, x);
    }
  }

  lemma SettleRetries(w: World, a: Act, id: nat)
    requires Enabled(w, a) && Settling(w, a)
    ensures Counted(After(w, a).r, id) == if DropsCount(w, a, id) then 0 else Counted(w.r, id)
  {
    SettlementKeys(w, a);
    hide After, Enabled;
  }

  lemma UserSameRetries(w: World, a: Act)
    requires Enabled(w, a) && UserStep(a)
    ensures After(w, a).r.retries == w.r.retries
  {
    hide AdvanceOp, RenewOp, PopJobs, SettleEntry, Look, Release, Overlapping;
    if a.ReleaseLease? {
      assert Release(w.r, a.stage, a.token).retries == w.r.retries by { ReleaseSameRetries(w.r, a.stage, a.token); }
    }
  }

  lemma ReleaseSameRetries(r: Redis, s: Stage, t: nat)
    ensures Release(r, s, t).retries == r.retries
  {
  }

  lemma AcceptSameRetries(w: World, a: Act)
    requires Enabled(w, a) && a.EnqueueAlert?
    ensures After(w, a).r.retries == w.r.retries
  {
    hide AdvanceOp, RenewOp, PopJobs, SettleEntry, Accept, Enqueues;
    AcceptedSameRetries(w, a.event, a.generation, a.stale, a.clock);
  }

  lemma AcceptedSameRetries(w: World, e: Event, g: nat, stale: bool, clock: int)
    ensures Accept(w, e, g, stale, clock).r.retries == w.r.retries
  {
  }

  lemma StreamSameRetries(w: World, a: Act)
    requires Enabled(w, a) && (a.Tick? || a.ReadNew? || a.ClaimIdle? || a.TrimStream?)
    ensures After(w, a).r.retries == w.r.retries
  {
    hide AdvanceOp, RenewOp, PopJobs, SettleEntry, IsFloor, NextUnread, Claim, Accept, Trim, Read;
    match a
    case ClaimIdle(id, c) => QueueSameRetries(w.r, id, c);
    case ReadNew(id, c) => QueueSameRetries(w.r, id, c);
    case TrimStream(floor) => QueueSameRetries(w.r, floor, 0);
    case Tick(_) =>
  }

  lemma QueueSameRetries(r: Redis, id: nat, c: nat)
    ensures Claim(r, id, c).retries == r.retries && Read(r, id, c).retries == r.retries && Trim(r, id).retries == r.retries
  {
    if id in r.entries {
      assert Claim(r, id, c) == r.(pending := r.pending[id := c]);
    } else {
      assert Claim(r, id, c) == r.(pending := r.pending - {id});
    }
    hide Claim;
  }

  lemma OwnSameRetries(w: World, a: Act)
    requires Enabled(w, a) && (a.StartOp? || a.Cancel? || a.Crash?)
    ensures After(w, a).r.retries == w.r.retries
  {
    hide AdvanceOp, RenewOp, PopJobs, SettleEntry;
  }

  lemma PlainSameRetries(w: World, a: Act)
    requires Enabled(w, a) && !a.Advance? && !a.ForgetRetry? && !UserStep(a)
    ensures After(w, a).r.retries == w.r.retries
  {
    hide AdvanceOp, RenewOp, PopJobs, SettleEntry;
    if a.PopMature? {
      PopSameRetries(w, a.due);
    } else if a.Heartbeat? {
      RenewSameRetries(w, a.token, w.ops[a.token].point);
    } else {
      if a.StartOp? || a.Cancel? || a.Crash? {
        OwnSameRetries(w, a);
      } else if a.EnqueueAlert? {
        AcceptSameRetries(w, a);
      } else {
        StreamSameRetries(w, a);
      }
      hide After, Enabled;
    }
  }

  lemma PlainRetries(w: World, a: Act, id: nat)
    requires Enabled(w, a) && !a.Advance?
    ensures Counted(After(w, a).r, id) == if a == ForgetRetry(id) then 0 else Counted(w.r, id)
  {
    hide AdvanceOp, RenewOp, PopJobs, SettleEntry;
    if !a.ForgetRetry? {
      if UserStep(a) {
        UserSameRetries(w, a);
      } else {
        PlainSameRetries(w, a);
      }
      hide After, Enabled;
    }
  }

  lemma StepRetries(w: World, a: Act, id: nat)
    requires Enabled(w, a)
    ensures Counted(After(w, a).r, id) ==
            if CountsFailure(w, a, id) then Counted(w.r, id) + 1 else if DropsCount(w, a, id) then 0 else Counted(w.r, id)
  {
    if !a.Advance? {
      PlainRetries(w, a, id);
    } else if Settling(w, a) {
      SettleRetries(w, a, id);
    } else {
      CallRetries(w, a.token, a.answers, id);
      assert After(w, a) == AdvanceOp(w, a.token, a.answers);
    }
    hide After, Enabled;
  }

  function Failures(run: seq<World>, acts: seq<Act>, i: nat, k: nat, id: nat): nat
    requires i <= k <= |acts| && |run| == |acts| + 1
    decreases k
  {
    if i == k then 0
    else Failures(run, acts, i, k - 1, id) + if CountsFailure(run[k - 1], acts[k - 1], id) then 1 else 0
  }

  /** The counter is the number of failures counted since it was last dropped. */
  lemma {:induction false} CounterCounts(run: seq<World>, acts: seq<Act>, i: nat, k: nat, id: nat)
    requires IsRun(run, acts) && i <= k <= |acts|
    ensures Counted(run[k].r, id) <= Counted(run[i].r, id) + Failures(run, acts, i, k, id)
    ensures (forall m :: i <= m < k ==> !DropsCount(run[m], acts[m], id)) ==>
              Counted(run[k].r, id) == Counted(run[i].r, id) + Failures(run, acts, i, k, id)
    decreases k
  {
    hide After, Enabled, CountsFailure, DropsCount;
    if i < k {
      CounterCounts(run, acts, i, k - 1, id);
      assert Enabled(run[k - 1], acts[k - 1]) && run[k] == After(run[k - 1], acts[k - 1]);
      StepRetries(run[k - 1], acts[k - 1], id);
    }
  }

  /** An entry that is dead-lettered for its failures has failed at least five times. */
  lemma FiveFailures(run: seq<World>, acts: seq<Act>, i: nat, t: nat)
    requires IsRun(run, acts) && i < |acts| && acts[i].Advance? && acts[i].token == t && t in run[i].ops
    requires run[i].ops[t].point.CountFailure? && Cause(run[i].r, run[i].ops[t], acts[i].answers, DeadLetter)
    ensures Failures(run, acts, 0, i + 1, run[i].ops[t].id) >= 5
  {
    CounterCounts(run, acts, 0, i, run[i].ops[t].id);
  }
}
