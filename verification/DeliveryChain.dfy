/** Marks are final: the recorded mark of a job and the live mark of a stage keep their values. */
module DeliveryChain {
  import opened DeliveryState
  import opened DeliveryRun
  import opened DeliveryInvariant
  import opened DeliveryProofs
  import opened DeliveryTheorems
  import opened DeliveryOnce

  // ---- What a step does to the marks -----------------------------------------------------------------------

  predicate SameMarks(w: World, w': World) {
    w'.r.marks == w.r.marks && w'.h.marked == w.h.marked && w'.h.sentBy == w.h.sentBy
  }

  /** The step settles an entry. */
  predicate Settling(w: World, a: Act) {
    a.Advance? && a.token in w.ops && w.ops[a.token].point.Settle?
  }

  lemma {:induction false} PopSameMarks(w: World, due: seq<Job>)
    ensures SameMarks(w, PopJobs(w, due))
    decreases |due|
  {
    if due != [] {
      PopSameMarks(PopOneJob(w, due[0]), due[1..]);
    }
  }

  lemma RenewSameMarks(w: World, t: nat, next: Point)
    requires t in w.ops
    ensures SameMarks(w, RenewOp(w, t, next))
  {
  }

  lemma LookSameMarks(w: World, t: nat, x: Answers)
    requires t in w.ops && (Looks(w.ops[t].point) || w.ops[t].point.CountFailure?)
    ensures SameMarks(w, AdvanceOp(w, t, x))
  {
    hide Look;
  }

  lemma SendSameMarks(w: World, t: nat, x: Answers)
    requires t in w.ops && (w.ops[t].point.BeginSend? || w.ops[t].point.EndSend?)
    ensures SameMarks(w, AdvanceOp(w, t, x))
  {
  }

  lemma AdvanceSameMarks(w: World, t: nat, x: Answers)
    requires t in w.ops && !w.ops[t].point.Settle?
    ensures SameMarks(w, AdvanceOp(w, t, x))
  {
    if w.ops[t].point.Reguard? {
      RenewSameMarks(w, t, RecheckContent);
      assert AdvanceOp(w, t, x) == RenewOp(w, t, RecheckContent);
    } else {
      hide AdvanceOp;
      if w.ops[t].point.BeginSend? || w.ops[t].point.EndSend? {
        SendSameMarks(w, t, x);
      } else {
        LookSameMarks(w, t, x);
      }
    }
  }

  lemma OpSameMarks(w: World, a: Act)
    requires Enabled(w, a) && !Settling(w, a) && (a.Heartbeat? || a.Advance?)
    ensures SameMarks(w, After(w, a))
  {
    if a.Advance? {
      AdvanceSameMarks(w, a.token, a.answers);
      assert After(w, a) == AdvanceOp(w, a.token, a.answers);
    } else {
      RenewSameMarks(w, a.token, w.ops[a.token].point);
      assert After(w, a) == RenewOp(w, a.token, w.ops[a.token].point);
    }
  }

  /** Only settling and a deletion's clean-up touch the marks. */
  lemma StepSameMarks(w: World, a: Act)
    requires Enabled(w, a) && !Settling(w, a) && !a.DropMark?
    ensures SameMarks(w, After(w, a))
  {
    hide AdvanceOp, RenewOp, PopJobs, Claim, IsFloor, NextUnread, IsDue;
    if a.ClaimIdle? {
      ClaimFrame(w.r, a.id, a.consumer);
    } else if a.PopMature? {
      PopSameMarks(w, a.due);
    } else if a.Heartbeat? || a.Advance? {
      OpSameMarks(w, a);
    }
  }

  lemma DropMarkEffect(w: World, s: Stage)
    requires Enabled(w, DropMark(s))
    ensures var w' := After(w, DropMark(s));
      w'.r.marks == w.r.marks - {s} && w'.h.marked == w.h.marked && w'.h.sentBy == w.h.sentBy && w'.r.generations == w.r.generations
  {
  }

  /** What settling leaves: the mark it writes, if it writes one. */
  function Written(r: Redis, j: Job, how: Settlement): (m: seq<Mark>)
    ensures |m| <= 1
  {
    match how
    case Skip => [Skipped]
    case MarkSent => [Sent]
    case DeadLetter => if Allowed(r, j) then [Failed] else []
    case _ => []
  }

  ghost predicate Marks(w: World, w': World, j: Job, written: seq<Mark>) {
    if written == [] then SameMarks(w, w')
    else
      && w'.r.marks == w.r.marks[StageOf(j) := Expiring(written[0], w.r.now + MARK_LIFE)]
      && w'.h.marked == w.h.marked[j := written[0]]
      && w'.h.sentBy == if written[0] == Sent then w.h.sentBy + {j} else w.h.sentBy
  }

  lemma SettleMarks(w: World, id: nat, j: Job, how: Settlement)
    ensures Marks(w, SettleEntry(w, id, j, how), j, Written(w.r, j, how))
  {
  }

  lemma StepMarks(w: World, a: Act)
    requires Enabled(w, a) && Settling(w, a)
    ensures Marks(w, After(w, a), w.ops[a.token].job, Written(w.r, w.ops[a.token].job, w.ops[a.token].point.how))
  {
    var op := w.ops[a.token];
    var w1 := Leave(w, a.token);
    assert After(w, a) == SettleEntry(w1, op.id, op.job, op.point.how);
    assert SameMarks(w, w1) && w1.r == w.r;
    SettleMarks(w1, op.id, op.job, op.point.how);
  }

  // ---- A mark is final -------------------------------------------------------------------------------------

  lemma StepKeepsMark(w: World, a: Act, j: Job)
    requires Inv(w) && Enabled(w, a) && j in w.h.marked && Counts(w, j)
    ensures j in After(w, a).h.marked && After(w, a).h.marked[j] == w.h.marked[j]
  {
    if Settling(w, a) {
      var op := w.ops[a.token];
      assert Active(w, op);
      StepMarks(w, a);
      hide After, Enabled, Inv;
      if op.job == j && !op.point.how.Drop? {
        SettlesUnmarked(w, a.token);
      }
    } else if a.DropMark? {
      DropMarkEffect(w, a.stage);
    } else {
      hide After, Enabled, Inv;
      StepSameMarks(w, a);
    }
  }

  /** A generation in use at `k` that was in use at `i` has been the recipient's ever since. */
  lemma CurrentBefore(run: seq<World>, acts: seq<Act>, i: nat, j: Job)
    requires IsRun(run, acts) && i < |acts| && Current(run[i + 1].r, j) && j.generation in Used(run[i], j.event.recipient)
    ensures Current(run[i].r, j) && run[i].h.overlapped <= run[i + 1].h.overlapped
  {
    RunStep(run, acts, i);
  }

  /** The recorded mark of a job keeps its value for as long as its generation is the recipient's. */
  lemma {:induction false} MarkStays(run: seq<World>, acts: seq<Act>, i: nat, k: nat, j: Job)
    requires IsRun(run, acts) && i <= k < |run| && j in run[i].h.marked && Counts(run[k], j)
    ensures j in run[k].h.marked && run[k].h.marked[j] == run[i].h.marked[j] && Counts(run[i], j)
    decreases k - i
  {
    hide After, Enabled, Inv;
    if i < k {
      Reachable(run, acts, k - 1);
      RunRemembers(run, acts, i, k - 1);
      MarkedAccepted(run[k - 1], j);
      CurrentBefore(run, acts, k - 1, j);
      MarkStays(run, acts, i, k - 1, j);
      StepKeepsMark(run[k - 1], acts[k - 1], j);
    }
  }

  lemma MarkedAccepted(w: World, j: Job)
    requires Inv(w) && j in w.h.marked
    ensures j in w.h.jobs && (j.event, j.generation) in w.h.accepted && j.generation in Used(w, j.event.recipient)
    ensures 1 <= j.step <= 3
  {
    assert MarkedOk(w, j);
    assert JobOk(w, j);
    assert AcceptedOk(w, (j.event, j.generation));
  }

  // ---- A mark in Redis is final too ----------------------------------------------------------------------------

  ghost predicate MarkRecorded(w: World, s: Stage) {
    exists h :: Job(s.event, s.step, h) in w.h.marked
  }

  lemma StepRecordsMark(w: World, a: Act, s: Stage)
    requires Enabled(w, a) && s in After(w, a).r.marks && (s in w.r.marks ==> MarkRecorded(w, s))
    requires w.h.marked.Keys <= After(w, a).h.marked.Keys
    ensures MarkRecorded(After(w, a), s)
  {
    if Settling(w, a) {
      StepMarks(w, a);
    } else if a.DropMark? {
      DropMarkEffect(w, a.stage);
    } else {
      StepSameMarks(w, a);
    }
    hide After, Enabled;
    if s in w.r.marks {
      var h :| Job(s.event, s.step, h) in w.h.marked;
      assert Job(s.event, s.step, h) in After(w, a).h.marked;
    } else {
      var j := w.ops[a.token].job;
      assert j == Job(s.event, s.step, j.generation);
    }
  }

  lemma {:induction false} MarksRecorded(run: seq<World>, acts: seq<Act>, i: nat, s: Stage)
    requires IsRun(run, acts) && i < |run| && s in run[i].r.marks
    ensures MarkRecorded(run[i], s)
  {
    hide After, Enabled;
    if i > 0 {
      RunRemembers(run, acts, i - 1, i);
      if s in run[i - 1].r.marks {
        MarksRecorded(run, acts, i - 1, s);
      }
      StepRecordsMark(run[i - 1], acts[i - 1], s);
    }
  }

  lemma JobAccepted(w: World, t: nat)
    requires Inv(w) && t in w.ops
    ensures var j := w.ops[t].job; (j.event, j.generation) in w.h.accepted && 1 <= j.step <= 3 && j in w.h.jobs
  {
    OpJob(w, t);
    assert JobOk(w, w.ops[t].job);
  }

  lemma StepKeepsRedisMark(w: World, a: Act, s: Stage, g: nat)
    requires Inv(w) && Enabled(w, a) && s in w.r.marks && Job(s.event, s.step, g) in w.h.marked
    requires OneGeneration(w, s.event, g) && Generation(w.r, s.event.recipient) == g && s.event.recipient !in w.h.overlapped
    ensures s in After(w, a).r.marks && After(w, a).r.marks[s] == w.r.marks[s]
  {
    MarkedAccepted(w, Job(s.event, s.step, g));
    if Settling(w, a) {
      assert Active(w, w.ops[a.token]);
      StepMarks(w, a);
      JobAccepted(w, a.token);
      hide After, Enabled, Inv;
      if StageOf(w.ops[a.token].job) == s && !w.ops[a.token].point.how.Drop? {
        SettlesUnmarked(w, a.token);
      }
    } else if a.DropMark? {
      DropMarkEffect(w, a.stage);
      assert AcceptedOk(w, (s.event, g)) && UserOk(w, a.stage.event.recipient);
    } else {
      hide After, Enabled, Inv;
      StepSameMarks(w, a);
    }
  }

  /** While an event has been accepted under one generation only and that generation is the recipient's, no mark of its
      stages in Redis is ever overwritten or dropped; it just expires. */
  lemma {:induction false} RedisMarkStays(run: seq<World>, acts: seq<Act>, i: nat, k: nat, s: Stage, g: nat)
    requires IsRun(run, acts) && i <= k < |run| && s in run[i].r.marks
    requires OneGeneration(run[k], s.event, g) && Counts(run[k], Job(s.event, s.step, g))
    ensures s in run[k].r.marks && run[k].r.marks[s] == run[i].r.marks[s]
    decreases k - i
  {
    hide After, Enabled, Inv;
    if i < k {
      var w := run[k - 1];
      Reachable(run, acts, k - 1);
      MarksRecorded(run, acts, i, s);
      RunRemembers(run, acts, i, k - 1);
      var h :| Job(s.event, s.step, h) in run[i].h.marked;
      MarkedAccepted(w, Job(s.event, s.step, h));
      StepKeepsAccepted(w, acts[k - 1]);
      assert h == g;
      CurrentBefore(run, acts, k - 1, Job(s.event, s.step, g));
      RedisMarkStays(run, acts, i, k - 1, s, g);
      StepKeepsRedisMark(w, acts[k - 1], s, g);
    }
  }
}
