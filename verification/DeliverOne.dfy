/** The delivery routine as one procedure. */
module DeliverOne {
  // Between any two of its Redis calls the other processes may do anything, and it may be cut off. Its calls are proved
  // to be exactly the operation's steps in the system of `DeliveryRun`.

  import opened DeliveryState
  import opened DeliveryRun
  import opened DeliveryRedis
  import opened DeliveryCauses
  import opened Options

  /** One step of an operation: the keys and the operation before it, and after it unless it was the last. A step that
      is cut off is no command: the operation is cancelled where it stands. */
  datatype Taken = Taken(before: Redis, op: Op, answers: Answers, after: Redis, next: Option<Op>, cut: bool)

  function NoHistory(): History {
    History(map[], {}, map[], map[], map[], {}, {}, map[], map[], {}, {})
  }

  function Alone(r: Redis, t: nat, op: Op): World {
    World(r, map[t := op], map[], NoHistory())
  }

  function OpIn(w: World, t: nat): Option<Op> {
    if t in w.ops then Some(w.ops[t]) else None
  }

  ghost predicate SameStep(w: World, w': World, t: nat) {
    w.r == w'.r && OpIn(w, t) == OpIn(w', t)
  }

  /** An operation's step depends on nothing but the keys and the operation itself. */
  lemma StepIsLocal(w: World, t: nat, x: Answers)
    requires t in w.ops
    ensures SameStep(AdvanceOp(w, t, x), AdvanceOp(Alone(w.r, t, w.ops[t]), t, x), t)
  {
    if w.ops[t].point.Settle? {
      SettleIsLocal(w, t, w.ops[t].point.how, x);
    } else {
      CallIsLocal(w, t, x);
    }
  }

  lemma LookIsLocal(w: World, t: nat, x: Answers)
    requires t in w.ops && Looks(w.ops[t].point)
    ensures SameStep(AdvanceOp(w, t, x), AdvanceOp(Alone(w.r, t, w.ops[t]), t, x), t)
  {
    hide Look;
  }

  lemma RenewIsLocal(w: World, t: nat, x: Answers)
    requires t in w.ops && (w.ops[t].point.Reguard? || w.ops[t].point.CountFailure?)
    ensures SameStep(AdvanceOp(w, t, x), AdvanceOp(Alone(w.r, t, w.ops[t]), t, x), t)
  {
  }

  lemma CallIsLocal(w: World, t: nat, x: Answers)
    requires t in w.ops && !w.ops[t].point.Settle?
    ensures SameStep(AdvanceOp(w, t, x), AdvanceOp(Alone(w.r, t, w.ops[t]), t, x), t)
  {
    if Looks(w.ops[t].point) {
      LookIsLocal(w, t, x);
    } else if w.ops[t].point.Reguard? || w.ops[t].point.CountFailure? {
      RenewIsLocal(w, t, x);
    } else {
      hide Look, RenewOp;
      assert w.ops[t].point.BeginSend? || w.ops[t].point.EndSend?;
    }
  }

  lemma SettleIsLocal(w: World, t: nat, how: Settlement, x: Answers)
    requires t in w.ops && w.ops[t].point == Settle(how)
    ensures SameStep(AdvanceOp(w, t, x), AdvanceOp(Alone(w.r, t, w.ops[t]), t, x), t)
  {
    hide Look, RenewOp;
  }

  predicate IsStep(s: Taken, t: nat) {
    var w := Alone(s.before, t, s.op);
    var w' := if s.cut then Leave(w, t) else AdvanceOp(w, t, s.answers);
    s.after == w'.r && s.next == OpIn(w', t)
  }

  /** In the system the step is an act of the operation wherever the keys and the operation are as it found them. */
  lemma StepIsAct(w: World, t: nat, s: Taken)
    requires IsStep(s, t) && w.r == s.before && t in w.ops && w.ops[t] == s.op && (s.cut || CanAdvance(w, t))
    ensures var a := if s.cut then Cancel(t) else Advance(t, s.answers);
      Enabled(w, a) && After(w, a).r == s.after && OpIn(After(w, a), t) == s.next
  {
    hide AdvanceOp;
    StepIsLocal(w, t, s.answers);
  }

  /** The command that an operation sends at the point where it is. */
  function CommandOf(op: Op, t: nat): Command {
    match op.point
    case Reguard => RenewCall(op.id, StageOf(op.job), op.consumer, t)
    case BeginSend => BeginCall(op.job.event.recipient, op.job.generation)
    case CountFailure => CountCall(op.id)
    case EndSend => EndCall(op.job.event.recipient)
    case Settle(how) =>
      (match how
       case Drop(_) => AckCall(op.id)
       case Skip => MarkCall(op.id, StageOf(op.job), Skipped)
       case MarkSent => MarkCall(op.id, StageOf(op.job), Sent)
       case DeadLetter => DeadLetterCall(op.id, op.job)
       case PutBack => RequeueCall(op.id, op.job))
    case _ => LookCall
  }

  /** The commands of a trace, in order. */
  function Calls(trace: seq<Taken>, t: nat): seq<Call> {
    if trace == [] then []
    else
      var s := trace[|trace| - 1];
      Calls(trace[..|trace| - 1], t) + if s.cut then [] else [Call(CommandOf(s.op, t), s.before, s.after)]
  }

  /** Step `i` was taken where step `i - 1` left the operation. */
  predicate Follows(trace: seq<Taken>, i: nat, op: Op)
    requires i < |trace|
  {
    Some(trace[i].op) == if i == 0 then Some(op) else trace[i - 1].next
  }

  /** The operation's own steps in order, from `op` to where it stands now; None when it is over. */
  ghost predicate IsTrace(trace: seq<Taken>, t: nat, op: Op, now: Option<Op>) {
    && (forall i :: 0 <= i < |trace| ==> IsStep(trace[i], t))
    && (forall i :: 0 <= i < |trace| ==> Follows(trace, i, op))
    && now == if trace == [] then Some(op) else trace[|trace| - 1].next
  }

  lemma Extend(trace: seq<Taken>, t: nat, op: Op, s: Taken)
    requires IsTrace(trace, t, op, Some(s.op)) && IsStep(s, t)
    ensures IsTrace(trace + [s], t, op, s.next)
    ensures Calls(trace + [s], t) == Calls(trace, t) + if s.cut then [] else [Call(CommandOf(s.op, t), s.before, s.after)]
  {
    hide IsStep;
    var trace' := trace + [s];
    forall i | 0 <= i < |trace'| ensures IsStep(trace'[i], t) && Follows(trace', i, op) {
      if i < |trace| {
        assert trace'[i] == trace[i] && Follows(trace, i, op);
      }
    }
    assert trace'[..|trace'| - 1] == trace;
  }

  function Looked(r: Redis, op: Op, x: Answers): Taken
    requires Looks(op.point)
  {
    Taken(r, op, x, r, Some(op.(point := Look(r, op, x))), false)
  }

  lemma LookIsStep(r: Redis, t: nat, op: Op, x: Answers)
    requires Looks(op.point)
    ensures IsStep(Looked(r, op, x), t)
  {
    hide Look;
  }

  lemma SettleIsStep(r: Redis, t: nat, op: Op, how: Settlement, x: Answers, after: Redis)
    requires op.point == Settle(how)
    requires after == match how
                      case Drop(_) => Ack(r, op.id)
                      case Skip => MarkAndAck(r, op.id, StageOf(op.job), Skipped)
                      case MarkSent => MarkAndAck(r, op.id, StageOf(op.job), Sent)
                      case DeadLetter => StoreDeadLetter(r, op.id, op.job)
                      case PutBack => Requeue(r, op.id, op.job)
    ensures IsStep(Taken(r, op, x, after, if op.reserved then Some(op.(point := EndSend)) else None, false), t)
  {
  }

  lemma EndIsStep(r: Redis, t: nat, op: Op, x: Answers)
    requires op.point.EndSend?
    ensures IsStep(Taken(r, op, x, End(r, op.job.event.recipient), None, false), t)
  {
  }

  lemma BeginIsStep(r: Redis, t: nat, op: Op, x: Answers)
    requires op.point.BeginSend?
    ensures var u := op.job.event.recipient; var begins := Begins(r, u, op.job.generation);
      IsStep(Taken(r, op, x, if begins then Begin(r, u) else r,
        Some(if begins then op.(point := Sending, reserved := true) else op.(point := Settle(Drop(Privacy)))), false), t)
  {
  }

  lemma CountIsStep(r: Redis, t: nat, op: Op, x: Answers)
    requires op.point.CountFailure?
    ensures var r' := CountRetry(r, op.id);
      IsStep(Taken(r, op, x, r', if Attempts(r', op.id) >= MAX_ATTEMPTS then Some(op.(point := Settle(DeadLetter)))
                                 else if op.reserved then Some(op.(point := EndSend)) else None, false), t)
  {
  }

  lemma GuardIsStep(r: Redis, t: nat, op: Op, x: Answers)
    requires op.point.Reguard?
    ensures var can := CanRenew(r, op.id, StageOf(op.job), op.consumer, t);
      IsStep(Taken(r, op, x, if can then Renew(r, StageOf(op.job), t) else r,
        if can then Some(op.(renewed := r.now, point := RecheckContent))
        else if op.reserved then Some(op.(point := EndSend)) else None, false), t)
  {
  }

  /** In a trace the command that settles the entry in a certain way comes right after the step that found the cause for
      it, and only then. */
  lemma SettlesForCause(trace: seq<Taken>, t: nat, op0: Op, now: Option<Op>, n: nat, how: Settlement)
    requires IsTrace(trace, t, op0, now) && 0 < n < |trace| && !trace[n - 1].cut && !trace[n - 1].op.point.Settle?
    ensures trace[n].op.point == Settle(how) <==> Cause(trace[n - 1].before, trace[n - 1].op, trace[n - 1].answers, how)
  {
    var s := trace[n - 1];
    assert IsStep(s, t) && Follows(trace, n, op0);
    hide Cause, AdvanceOp;
    TurnsIff(Alone(s.before, t, s.op), t, s.answers, how);
  }

  lemma CutIsStep(r: Redis, t: nat, op: Op, x: Answers)
    ensures IsStep(Taken(r, op, x, r, if op.reserved then Some(op.(point := EndSend)) else None, true), t)
  {
  }

  /** How far an operation has come: where it began, the steps it has taken, where it stands, the commands that its
      process had sent before, and the number of steps after which it is cut off. */
  datatype Progress = Progress(t: nat, start: Op, trace: seq<Taken>, now: Option<Op>, past: seq<Call>, lives: nat)

  predicate SameStart(p: Progress, p': Progress) {
    p'.t == p.t && p'.start == p.start && p'.past == p.past && p'.lives == p.lives
  }

  function Went(p: Progress, s: Taken): Progress {
    p.(trace := p.trace + [s], now := s.next)
  }

  /** What the procedure knows of its operation. */
  predicate Is(o: Option<Op>, id: nat, job: Job, reserved: bool) {
    o.Some? && o.value.id == id && o.value.job == job && o.value.reserved == reserved
  }

  class Broadcaster {
    const server: Server
    /** How many more steps the process is given before it is cut off: any number. */
    var lives: nat

    constructor (server: Server, lives: nat)
      ensures this.server == server && this.lives == lives
    {
      this.server, this.lives := server, lives;
    }

    /** The commands sent since the operation began are exactly those of the steps it has taken. */
    ghost predicate Tracks(p: Progress)
      reads server
    {
      server.Valid() && IsTrace(p.trace, p.t, p.start, p.now) && server.calls == p.past + Calls(p.trace, p.t)
    }

    /** It has not been cut off. */
    ghost predicate GoesOn(p: Progress)
      reads this`lives
    {
      |p.trace| + lives == p.lives
    }

    /** It has ended: normally, when the operation is over, or because it was cut off after all its steps. */
    ghost predicate Ends(p: Progress, finished: bool) {
      if finished then p.now == None else p.lives <= |p.trace|
    }

    /** The step that the command just sent stands for. */
    ghost method Note(s: Taken, p: Progress) returns (p': Progress)
      requires server.Valid() && IsTrace(p.trace, p.t, p.start, Some(s.op)) && IsStep(s, p.t)
      requires server.calls == p.past + Calls(p.trace, p.t) +
                               if s.cut then [] else [Call(CommandOf(s.op, p.t), s.before, s.after)]
      ensures p' == Went(p, s) && Tracks(p')
    {
      hide IsStep, IsTrace, CommandOf;
      Extend(p.trace, p.t, p.start, s);
      p' := Went(p, s);
    }

    /** The process dies, or the operation is cancelled or fails: then a reservation is still given back, if it can be. */
    method CutOff(job: Job, reserved: bool, ghost p: Progress) returns (ghost p': Progress)
      requires Tracks(p) && p.now.Some? && p.now.value.job == job && p.now.value.reserved == reserved
      modifies server
      ensures Tracks(p') && SameStart(p, p') && |p.trace| <= |p'.trace|
    {
      hide IsStep, IsTrace;
      p' := p;
      var dies: bool := *;
      if !dies {
        ghost var x: Answers := *;
        ghost var op := p.now.value;
        CutIsStep(server.State(), p.t, op, x);
        p' := Note(Taken(server.State(), op, x, server.State(), if reserved then Some(op.(point := EndSend)) else None, true), p);
        server.Interfere();
        var reached: bool := *;
        if reserved && reached {
          p' := EndReservation(job, p');
        }
      }
    }

    /** END_DELIVERY_LUA */
    method EndReservation(job: Job, ghost p: Progress) returns (ghost p': Progress)
      requires Tracks(p) && p.now.Some? && p.now.value.point.EndSend? && p.now.value.job == job
      modifies server
      ensures Tracks(p') && SameStart(p, p') && |p'.trace| == |p.trace| + 1 && p'.now == None
    {
      hide IsStep, IsTrace;
      ghost var r := server.State();
      server.EndDelivery(job.event.recipient);
      ghost var x: Answers := *;
      EndIsStep(r, p.t, p.now.value, x);
      p' := Note(Taken(r, p.now.value, x, server.State(), None, false), p);
    }

    /** Others run, then the next look at the keys and at the environment, unless the process is cut off. */
    method Await(id: nat, job: Job, reserved: bool, ghost p: Progress) returns (alive: bool, x: Answers, ghost p': Progress)
      requires Tracks(p) && Is(p.now, id, job, reserved) && Looks(p.now.value.point)
      requires GoesOn(p)
      modifies server, this`lives
      ensures Tracks(p') && SameStart(p, p') && (if alive then GoesOn(p') else Ends(p', false))
      ensures alive ==> p'.now == Some(p.now.value.(point := Look(server.State(), p.now.value, x)))
    {
      hide IsStep, IsTrace, Look;
      server.Interfere();
      alive, x := lives > 0, *;
      if !alive {
        p' := CutOff(job, reserved, p);
        return;
      }
      lives := lives - 1;
      server.Look();
      LookIsStep(server.State(), p.t, p.now.value, x);
      p' := Note(Looked(server.State(), p.now.value, x), p);
    }

    /** The settling command. */
    method SendSettling(id: nat, job: Job, how: Settlement, reserved: bool, ghost p: Progress) returns (ghost p': Progress)
      requires Tracks(p) && Is(p.now, id, job, reserved) && p.now.value.point == Point.Settle(how)
      modifies server
      ensures Tracks(p') && SameStart(p, p') && |p'.trace| == |p.trace| + 1
      ensures p'.now == if reserved then Some(p.now.value.(point := EndSend)) else None
    {
      hide IsStep, IsTrace;
      ghost var r := server.State();
      match how {
        case Drop(_) => server.AckEntry(id);
        case Skip => server.MarkStage(id, StageOf(job), Skipped);
        case MarkSent => server.MarkStage(id, StageOf(job), Sent);
        case DeadLetter => server.StoreDlq(id, job);
        case PutBack => server.RequeueStage(id, job);
      }
      ghost var x: Answers := *;
      ghost var op := p.now.value;
      SettleIsStep(r, p.t, op, how, x, server.State());
      p' := Note(Taken(r, op, x, server.State(), if reserved then Some(op.(point := EndSend)) else None, false), p);
    }

    /** The settling command, unless the process is cut off before it, and the reservation given back. */
    method Settle(id: nat, job: Job, how: Settlement, reserved: bool, ghost p: Progress)
      returns (finished: bool, ghost p': Progress)
      requires Tracks(p) && GoesOn(p) && Is(p.now, id, job, reserved) && p.now.value.point == Point.Settle(how)
      modifies server, this`lives
      ensures Tracks(p') && SameStart(p, p') && Ends(p', finished)
    {
      hide IsStep, IsTrace;
      server.Interfere();
      if lives == 0 {
        p' := CutOff(job, reserved, p);
        return false, p';
      }
      lives := lives - 1;
      p' := SendSettling(id, job, how, reserved, p);
      finished := !reserved;
      if reserved {
        finished, p' := GiveBack(job, p');
      }
    }

    /** The `finally` of the delivery. */
    method GiveBack(job: Job, ghost p: Progress) returns (finished: bool, ghost p': Progress)
      requires Tracks(p) && p.now.Some? && p.now.value.point.EndSend? && p.now.value.job == job && GoesOn(p)
      modifies server, this`lives
      ensures Tracks(p') && SameStart(p, p') && Ends(p', finished)
    {
      server.Interfere();
      finished, p' := lives > 0, p;
      if finished {
        lives := lives - 1;
        p' := EndReservation(job, p);
      }
    }

    /** INCR of the retry counter. */
    method SendCount(id: nat, job: Job, reserved: bool, ghost p: Progress) returns (attempts: nat, ghost p': Progress)
      requires Tracks(p) && Is(p.now, id, job, reserved) && p.now.value.point.CountFailure?
      modifies server
      ensures Tracks(p') && SameStart(p, p') && |p'.trace| == |p.trace| + 1
      ensures p'.now == if attempts >= MAX_ATTEMPTS then Some(p.now.value.(point := Point.Settle(DeadLetter)))
                        else if reserved then Some(p.now.value.(point := EndSend)) else None
    {
      hide IsStep, IsTrace;
      ghost var r := server.State();
      attempts := server.CountAttempt(id);
      ghost var x: Answers := *;
      ghost var op := p.now.value;
      CountIsStep(r, p.t, op, x);
      p' := Note(Taken(r, op, x, server.State(),
                       if attempts >= MAX_ATTEMPTS then Some(op.(point := Point.Settle(DeadLetter)))
                       else if reserved then Some(op.(point := EndSend)) else None, false), p);
    }

    /** _finish_failed_job for a failure that may be retried: the fifth is dead-lettered, others stay pending. */
    method FinishFailedJob(id: nat, job: Job, reserved: bool, ghost p: Progress) returns (finished: bool, ghost p': Progress)
      requires Tracks(p) && GoesOn(p) && Is(p.now, id, job, reserved) && p.now.value.point.CountFailure?
      modifies server, this`lives
      ensures Tracks(p') && SameStart(p, p') && Ends(p', finished)
    {
      hide IsStep, IsTrace;
      server.Interfere();
      if lives == 0 {
        p' := CutOff(job, reserved, p);
        return false, p';
      }
      lives := lives - 1;
      var attempts;
      attempts, p' := SendCount(id, job, reserved, p);
      finished := true;
      if attempts >= MAX_ATTEMPTS {
        finished, p' := Settle(id, job, DeadLetter, reserved, p');
      } else if reserved {
        finished, p' := GiveBack(job, p');
      }
    }

    /** The checks that every stage goes through before anything is sent: generation, deletion, age, own mark. */
    method CheckRecipient(id: nat, job: Job, ghost p0: Progress) returns (go: bool, finished: bool, ghost p: Progress)
      requires Tracks(p0) && GoesOn(p0) && Is(p0.now, id, job, false) && p0.now.value.point.ReadGeneration?
      modifies server, this`lives
      ensures Tracks(p) && SameStart(p0, p) && (if go then GoesOn(p) else Ends(p, finished))
      ensures go ==> p.now == Some(p0.now.value.(point := if job.step > 1 then ReadClear else ReadBlocked))
    {
      var user := job.event.recipient;
      var alive, x;
      p, go, finished := p0, false, false;
      hide IsStep, IsTrace;
      alive, x, p := Await(id, job, false, p);
      if !alive { return; }
      if Generation(server.State(), user) != job.generation {
        finished, p := Settle(id, job, Drop(Privacy), false, p);
        return;
      }
      alive, x, p := Await(id, job, false, p);
      if !alive { return; }
      if user in server.deleted {
        finished, p := Settle(id, job, Drop(Privacy), false, p);
        return;
      }
      alive, x, p := Await(id, job, false, p);
      if !alive { return; }
      if server.now - job.event.posted > MAX_AGE {
        finished, p := Settle(id, job, Drop(OverAge), false, p);
        return;
      }
      alive, x, p := Await(id, job, false, p);
      if !alive { return; }
      if HasMark(server.State(), StageOf(job), Sent) {
        finished, p := Settle(id, job, Drop(AlreadySent), false, p);
        return;
      }
      go := true;
    }

    /** The checks of a repeat: all-clear, the previous stage, night and mute. */
    method CheckRepeat(id: nat, job: Job, ghost p0: Progress) returns (go: bool, finished: bool, ghost p: Progress)
      requires Tracks(p0) && GoesOn(p0) && Is(p0.now, id, job, false) && p0.now.value.point.ReadClear? && job.step > 1
      modifies server, this`lives
      ensures Tracks(p) && SameStart(p0, p) && (if go then GoesOn(p) else Ends(p, finished))
      ensures go ==> p.now == Some(p0.now.value.(point := ReadBlocked))
    {
      var alive, x;
      p, go, finished := p0, false, false;
      hide IsStep, IsTrace;
      alive, x, p := Await(id, job, false, p);
      if !alive { return; }
      if x.cleared {
        finished, p := Settle(id, job, Skip, false, p);
        return;
      }
      alive, x, p := Await(id, job, false, p);
      if !alive { return; }
      var prior := Stage(job.event, job.step - 1);
      if HasMark(server.State(), prior, Skipped) {
        finished, p := Settle(id, job, Skip, false, p);
        return;
      }
      if HasMark(server.State(), prior, Failed) {
        finished, p := Settle(id, job, DeadLetter, false, p);
        return;
      }
      if !HasMark(server.State(), prior, Sent) {
        finished, p := Settle(id, job, PutBack, false, p);
        return;
      }
      alive, x, p := Await(id, job, false, p);
      if !alive { return; }
      if !x.night || x.muted {
        finished, p := Settle(id, job, Skip, false, p);
        return;
      }
      go := true;
    }

    /** send_single_message up to the reservation: blocked flag, rate slot, ownership, content. */
    method Reserve(t: nat, id: nat, job: Job, consumer: nat, ghost p0: Progress)
      returns (go: bool, finished: bool, ghost p: Progress)
      requires Tracks(p0) && GoesOn(p0) && p0.t == t && Is(p0.now, id, job, false)
      requires p0.now.value.point.ReadBlocked? && p0.now.value.consumer == consumer
      modifies server, this`lives
      ensures Tracks(p) && SameStart(p0, p) && (if go then GoesOn(p) else Ends(p, finished))
      ensures go ==> Is(p.now, id, job, false) && p.now.value.point.BeginSend?
    {
      var alive, x;
      p, go, finished := p0, false, false;
      hide IsStep, IsTrace;
      alive, x, p := Await(id, job, false, p);
      if !alive { return; }
      if x.blocked {
        finished, p := Settle(id, job, DeadLetter, false, p);
        return;
      }
      alive, x, p := Await(id, job, false, p);
      if !alive { return; }
      if !x.slot {
        finished, p := FinishFailedJob(id, job, false, p);
        return;
      }
      alive, finished, p := Guard(t, id, job, consumer, p);
      if !alive { return; }
      alive, x, p := Await(id, job, false, p);
      if !alive { return; }
      var age := server.now - job.event.posted;
      if age > MAX_AGE || (age > FRESHNESS && job.step > 1) {
        finished, p := Settle(id, job, Skip, false, p);
        return;
      }
      go := true;
    }

    /** The ownership guard: one more renewal of the lease. */
    method Guard(t: nat, id: nat, job: Job, consumer: nat, ghost p: Progress)
      returns (holds: bool, finished: bool, ghost p': Progress)
      requires Tracks(p) && GoesOn(p) && p.t == t && Is(p.now, id, job, false)
      requires p.now.value.point.Reguard? && p.now.value.consumer == consumer
      modifies server, this`lives
      ensures Tracks(p') && SameStart(p, p') && (if holds then GoesOn(p') else Ends(p', finished))
      ensures holds ==> !finished && Is(p'.now, id, job, false) && p'.now.value.point.RecheckContent?
    {
      hide IsStep, IsTrace;
      server.Interfere();
      if lives == 0 {
        p' := CutOff(job, false, p);
        return false, false, p';
      }
      lives := lives - 1;
      ghost var r := server.State();
      var renewed := server.RenewDelivery(id, StageOf(job), consumer, t);
      ghost var x: Answers := *;
      ghost var op := p.now.value;
      GuardIsStep(r, t, op, x);
      holds, finished := renewed == 1, renewed == 0;
      p' := Note(Taken(r, op, x, server.State(),
                       if holds then Some(op.(renewed := r.now, point := RecheckContent)) else None, false), p);
    }

    /** BEGIN_DELIVERY_LUA, unless the process is cut off before it. */
    method Begin(id: nat, job: Job, ghost p: Progress) returns (alive: bool, reserved: bool, ghost p': Progress)
      requires Tracks(p) && GoesOn(p) && Is(p.now, id, job, false) && p.now.value.point.BeginSend?
      modifies server, this`lives
      ensures Tracks(p') && SameStart(p, p') && (if alive then GoesOn(p') else Ends(p', false))
      ensures alive ==> Is(p'.now, id, job, reserved)
      ensures alive ==> p'.now.value.point == if reserved then Sending else Point.Settle(Drop(Privacy))
    {
      hide IsStep, IsTrace;
      server.Interfere();
      alive := lives > 0;
      if !alive {
        p' := CutOff(job, false, p);
        return false, false, p';
      }
      lives := lives - 1;
      ghost var r := server.State();
      var answer := server.BeginDelivery(job.event.recipient, job.generation);
      reserved := answer == 1;
      ghost var y: Answers := *;
      ghost var op := p.now.value;
      BeginIsStep(r, p.t, op, y);
      p' := Note(Taken(r, op, y, server.State(), Some(if reserved then op.(point := Sending, reserved := true)
                                                       else op.(point := Point.Settle(Drop(Privacy)))), false), p);
    }

    /** The reservation, the send, and what follows from its outcome. */
    method Send(id: nat, job: Job, ghost p: Progress) returns (finished: bool, ghost p': Progress)
      requires Tracks(p) && GoesOn(p) && Is(p.now, id, job, false) && p.now.value.point.BeginSend?
      modifies server, this`lives
      ensures Tracks(p') && SameStart(p, p') && Ends(p', finished)
    {
      hide IsStep, IsTrace;
      var alive, reserved, x;
      alive, reserved, p' := Begin(id, job, p);
      if !alive { return false, p'; }
      if !reserved {
        finished, p' := Settle(id, job, Drop(Privacy), false, p');
        return;
      }
      alive, x, p' := Await(id, job, true, p');
      if !alive { return false, p'; }
      match x.outcome {
        case Delivered => finished, p' := Settle(id, job, MarkSent, true, p');
        case Permanent => finished, p' := Settle(id, job, DeadLetter, true, p');
        case Retry => finished, p' := FinishFailedJob(id, job, true, p');
      }
    }

    /** _deliver_one. The commands it sends are those of its trace, in order and no others. When it finishes, the
        operation is over; it is cut off only after as many steps as it was given, and stands where its trace ends. */
    method DeliverOne(t: nat, id: nat, job: Job, consumer: nat, ghost started: nat)
      returns (finished: bool, ghost trace: seq<Taken>, ghost left: Option<Op>)
      requires server.Valid()
      modifies server, this`lives
      ensures server.Valid() && server.calls == old(server.calls) + Calls(trace, t)
      ensures IsTrace(trace, t, Op(id, job, consumer, ReadGeneration, started, started, false), left)
      ensures if finished then left == None else old(lives) <= |trace|
    {
      ghost var op0 := Op(id, job, consumer, ReadGeneration, started, started, false);
      ghost var p := Progress(t, op0, [], Some(op0), server.calls, lives);
      var go;
      go, finished, p := CheckRecipient(id, job, p);
      hide IsStep, IsTrace;
      if go && job.step > 1 {
        go, finished, p := CheckRepeat(id, job, p);
      }
      if go {
        go, finished, p := Reserve(t, id, job, consumer, p);
      }
      if go {
        finished, p := Send(id, job, p);
      }
      trace, left := p.trace, p.now;
    }
  }
}
