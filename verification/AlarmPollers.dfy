/** Any number of pollers on one key, each at its own point between two calls. */
module AlarmPollers {
  import opened Options
  import opened AlarmPoller

  /** Where a poller is: its next call, and what it has read so far. */
  datatype Phase =
    | Idle
    | Asked(index: Option<nat>)
    | Refreshing(decided: nat)
    | Fetching(index: Option<nat>)
    | Writing(index: Option<nat>, active: bool, fetched: nat, at: nat)
    | Noting(index: Option<nat>)
    | Ended
    | Failed
    | SettingFailsafe

  /** `writer` is the poller whose failsafe value the key holds; no process reads it. */
  datatype System = System(s: Shared, pollers: map<nat, Poller>, phases: map<nat, Phase>, writer: Option<nat>)

  datatype Act =
    | Tick(ms: nat)
    | Change(active: bool)
    | Start(p: nat)
    | Ask(p: nat, readable: bool)
    | Decide(p: nat)
    | Expire(p: nat)
    | Fetch(p: nat)
    | Write(p: nat)
    | Note(p: nat)
    | End(p: nat)
    | Fail(p: nat)
    | CheckFailsafe(p: nat)
    | SetFailsafe(p: nat, active: bool)

  predicate In(w: System, p: nat) {
    p in w.pollers && p in w.phases
  }

  predicate Enabled(w: System, a: Act) {
    match a
    case Tick(_) => true
    case Change(_) => true
    case Start(p) => p !in w.pollers && p !in w.phases
    case Ask(p, _) => In(w, p) && w.phases[p].Idle?
    case Decide(p) => In(w, p) && w.phases[p].Asked?
    case Expire(p) => In(w, p) && w.phases[p].Refreshing?
    case Fetch(p) => In(w, p) && w.phases[p].Fetching?
    case Write(p) => In(w, p) && w.phases[p].Writing?
    case Note(p) => In(w, p) && w.phases[p].Noting?
    case End(p) => In(w, p) && w.phases[p].Ended?
    case Fail(p) => In(w, p) && !w.phases[p].Idle? && !w.phases[p].Failed?
    case CheckFailsafe(p) => In(w, p) && w.phases[p].Failed?
    case SetFailsafe(p, _) => In(w, p) && w.phases[p].SettingFailsafe?
  }

  function At(w: System, p: nat, phase: Phase): System {
    w.(phases := w.phases[p := phase])
  }

  function After(w: System, a: Act): System
    requires Enabled(w, a)
  {
    match a
    case Tick(ms) => w.(s := w.s.(now := w.s.now + ms))
    case Change(active) => w.(s := w.s.(states := w.s.states + [active]))
    case Start(p) => w.(pollers := w.pollers[p := Poller(None, None)], phases := w.phases[p := Idle])
    case Ask(p, readable) => At(w, p, Asked(if readable && w.s.states != [] then Some(|w.s.states| - 1) else None))
    case Decide(p) =>
      var index := w.phases[p].index;
      At(w, p, if NeedsFull(w.s, w.pollers[p], index) then Fetching(index) else Refreshing(w.s.now))
    case Expire(p) =>
      if Visible(w.s) then At(w, p, Ended).(s := Refreshed(w.s, w.phases[p].decided))
      else At(w, p, Fetching(w.pollers[p].lastIndex))
    case Fetch(p) =>
      if w.s.states == [] then At(w, p, Failed)
      else At(w, p, Writing(w.phases[p].index, w.s.states[|w.s.states| - 1], w.s.now, |w.s.states| - 1))
    case Write(p) =>
      var ph := w.phases[p];
      At(w, p, Noting(ph.index)).(s := Written(w.s, ph.active, ph.fetched, ph.at), writer := None)
    case Note(p) =>
      At(w, p, Ended).(s := NoteStamp(w.s), pollers := w.pollers[p := Stamped(w.pollers[p], w.phases[p].index, w.s.now)])
    case End(p) => At(w, p, Idle)
    case Fail(p) => At(w, p, if w.phases[p].SettingFailsafe? then Idle else Failed)
    case CheckFailsafe(p) => At(w, p, if GoesFailsafe(w.s, w.pollers[p]) then SettingFailsafe else Idle)
    case SetFailsafe(p, active) => At(w, p, Idle).(s := FailsafeWritten(w.s, active), writer := Some(p))
  }

  predicate Initial(w: System) {
    w.s.key == None && w.pollers == map[] && w.phases == map[] && w.writer == None
  }

  predicate IsRun(run: seq<System>, acts: seq<Act>) {
    && |run| == |acts| + 1 && Initial(run[0])
    && forall i :: 0 <= i < |acts| ==> Enabled(run[i], acts[i]) && run[i + 1] == After(run[i], acts[i])
  }

  // ---- What every state satisfies -----------------------------------------------------------------------------

  predicate LongAgo(p: Poller, at: nat) {
    p.lastSuccess.Some? ==> p.lastSuccess.value + FAILSAFE_AFTER <= at
  }

  predicate PollerOk(w: System, p: nat)
    requires In(w, p)
  {
    var m := w.pollers[p];
    && (m.lastSuccess.Some? ==> m.lastSuccess.value <= w.s.now)
    && (w.phases[p].Refreshing? ==> m.lastSuccess.Some? && w.phases[p].decided <= w.s.now &&
                                    w.phases[p].decided < m.lastSuccess.value + FULL_AFTER)
    && (w.phases[p].SettingFailsafe? ==> LongAgo(m, w.s.now))
  }

  predicate Inv(w: System) {
    && w.pollers.Keys == w.phases.Keys
    && (forall p :: p in w.pollers ==> PollerOk(w, p))
    && (w.s.key.Some? && w.s.key.value.origin.Failsafe? <==> w.writer.Some?)
    && (w.writer.Some? ==>
          var q, at := w.writer.value, w.s.key.value.origin.at;
          q in w.pollers && WriterOk(w, q, at))
  }

  predicate WriterOk(w: System, q: nat, at: nat)
    requires q in w.pollers && w.pollers.Keys == w.phases.Keys
  {
    at <= w.s.now && LongAgo(w.pollers[q], at) && !w.phases[q].Refreshing? && !w.phases[q].Noting?
  }

  lemma KeepStep(w: System, a: Act)
    requires Inv(w) && Enabled(w, a)
    ensures Inv(After(w, a))
  {
    var w' := After(w, a);
    assert w'.pollers.Keys == w'.phases.Keys;
    KeepWriter(w, a);
    forall p | p in w'.pollers
      ensures PollerOk(w', p)
    {
      KeepPoller(w, a, p);
    }
    hide After, PollerOk, WriterOk;
  }

  lemma KeepPoller(w: System, a: Act, p: nat)
    requires Inv(w) && Enabled(w, a) && In(After(w, a), p)
    ensures PollerOk(After(w, a), p)
  {
    if p in w.pollers {
      assert PollerOk(w, p);
    }
  }

  lemma KeepWriter(w: System, a: Act)
    requires Inv(w) && Enabled(w, a)
    ensures var w' := After(w, a);
      && (w'.s.key.Some? && w'.s.key.value.origin.Failsafe? <==> w'.writer.Some?)
      && (w'.writer.Some? ==> In(w', w'.writer.value) && w'.pollers.Keys == w'.phases.Keys &&
                              WriterOk(w', w'.writer.value, w'.s.key.value.origin.at))
  {
    if a.SetFailsafe? {
      assert PollerOk(w, a.p);
    }
  }

  lemma {:induction false} Reachable(run: seq<System>, acts: seq<Act>, i: nat)
    requires IsRun(run, acts) && i < |run|
    ensures Inv(run[i])
  {
    if i > 0 {
      Reachable(run, acts, i - 1);
      KeepStep(run[i - 1], acts[i - 1]);
    }
  }

  // ---- Who refreshes a failsafe value, and for how long ----------------------------------------------------------

  /** The step extends a failsafe value that is still there. */
  predicate Extends(w: System, a: Act, p: nat) {
    a == Expire(p) && Visible(w.s) && w.s.key.value.origin.Failsafe?
  }

  /** In any run a failsafe value is extended only by another poller than the one that wrote it, which had a success
      less than 45 s before it decided to; the writer's own last success was 180 s before its write. */
  lemma ExtendedByAnother(run: seq<System>, acts: seq<Act>, k: nat, p: nat)
    requires IsRun(run, acts) && k < |acts| && Extends(run[k], acts[k], p)
    ensures var w := run[k];
      && w.writer.Some? && w.writer.value != p && w.writer.value in w.pollers && p in w.pollers
      && w.pollers[p].lastSuccess.Some? && p in w.phases && w.phases[p].Refreshing?
      && w.phases[p].decided < w.pollers[p].lastSuccess.value + FULL_AFTER
      && LongAgo(w.pollers[w.writer.value], w.s.key.value.origin.at)
  {
    Reachable(run, acts, k);
    assert PollerOk(run[k], p);
  }

  /** Every refresh takes effect within `delay` of its decision. */
  predicate Prompt(run: seq<System>, acts: seq<Act>, delay: nat) {
    forall i :: 0 <= i < |acts| && i < |run| && acts[i].Expire? && acts[i].p in run[i].phases && run[i].phases[acts[i].p].Refreshing? ==>
      run[i].s.now <= run[i].phases[acts[i].p].decided + delay
  }

  predicate RecentSuccess(w: System, p: nat, delay: nat) {
    && p in w.pollers && w.pollers[p].lastSuccess.Some? && w.s.key.Some?
    && w.s.key.value.expires < w.pollers[p].lastSuccess.value + FULL_AFTER + delay + STATE_LIFE
  }

  predicate LivesOwn(w: System) {
    w.s.key.Some? && w.s.key.value.origin.Failsafe? && w.s.key.value.expires == w.s.key.value.origin.at + STATE_LIFE
  }

  lemma StepBounds(w: System, a: Act, delay: nat) returns (p: nat)
    requires Inv(w) && Enabled(w, a) && After(w, a).writer.Some?
    requires a.Expire? ==> w.s.now <= w.phases[a.p].decided + delay
    requires w.writer.Some? ==> LivesOwn(w) || exists q :: RecentSuccess(w, q, delay)
    ensures LivesOwn(After(w, a)) || RecentSuccess(After(w, a), p, delay)
  {
    p := 0;
    if a.Expire? && Visible(w.s) {
      assert PollerOk(w, a.p);
      p := a.p;
    } else if !a.SetFailsafe? {
      if q :| RecentSuccess(w, q, delay) {
        assert PollerOk(w, q);
        p := q;
      }
    }
  }

  /** In any run: a failsafe value ends 90 s after it was written, or less than 135 s and the longest delay of a refresh
      after some poller's last success. So once every poller has failed for that long, none is extended. */
  lemma {:induction false} FailsafeBound(run: seq<System>, acts: seq<Act>, i: nat, delay: nat)
    requires IsRun(run, acts) && Prompt(run, acts, delay) && i < |run| && run[i].writer.Some?
    ensures LivesOwn(run[i]) || exists p :: RecentSuccess(run[i], p, delay)
  {
    if i > 0 {
      Reachable(run, acts, i - 1);
      if run[i - 1].writer.Some? {
        FailsafeBound(run, acts, i - 1, delay);
      }
      var p := StepBounds(run[i - 1], acts[i - 1], delay);
    }
  }

  // ---- It does happen ------------------------------------------------------------------------------------------

  lemma Extend(run: seq<System>, acts: seq<Act>, a: Act) returns (run': seq<System>, acts': seq<Act>)
    requires IsRun(run, acts) && Enabled(run[|acts|], a)
    ensures IsRun(run', acts') && |acts'| == |acts| + 1 && acts'[|acts|] == a && run'[|acts|] == run[|acts|]
    ensures run'[|acts'|] == After(run[|acts|], a)
  {
    run', acts' := run + [After(run[|acts|], a)], acts + [a];
  }

  predicate Polls(w: System, p: nat) {
    In(w, p) && w.phases[p].Idle? && w.s.states == [false] && NeedsFull(w.s, w.pollers[p], Some(0))
  }

  /** A full poll without delay. */
  lemma PollNow(run: seq<System>, acts: seq<Act>, p: nat) returns (run': seq<System>, acts': seq<Act>)
    requires IsRun(run, acts) && Polls(run[|acts|], p)
    ensures IsRun(run', acts')
    ensures var w := run[|acts|];
      run'[|acts'|] == System(NoteStamp(Written(w.s, false, w.s.now, 0)), w.pollers[p := Stamped(w.pollers[p], Some(0), w.s.now)],
                              w.phases[p := Idle], None)
  {
    var w := run[|acts|];
    run', acts' := Extend(run, acts, Ask(p, true));
    run', acts' := Extend(run', acts', Decide(p));
    assert run'[|acts'|] == At(w, p, Fetching(Some(0)));
    run', acts' := Extend(run', acts', Fetch(p));
    run', acts' := Extend(run', acts', Write(p));
    run', acts' := Extend(run', acts', Note(p));
    run', acts' := Extend(run', acts', End(p));
  }

  lemma TwoPollers() returns (run: seq<System>, acts: seq<Act>)
    ensures IsRun(run, acts)
    ensures run[|acts|] == System(Shared(200000, [false], Some(Cached(false, 280000, Polled(190000, 0, 190000, 190000, None)))),
                                  map[1 := Poller(Some(0), Some(0)), 2 := Poller(Some(0), Some(190000))],
                                  map[1 := Idle, 2 := Idle], None)
  {
    run, acts := [System(Shared(0, [false], None), map[], map[], None)], [];
    run, acts := Extend(run, acts, Start(1));
    run, acts := Extend(run, acts, Start(2));
    run, acts := PollNow(run, acts, 1);
    run, acts := Extend(run, acts, Tick(190000));
    run, acts := PollNow(run, acts, 2);
    run, acts := Extend(run, acts, Tick(10000));
  }

  /** Poller 1 cannot reach the API and writes the failsafe value. */
  lemma GoFailsafe(run: seq<System>, acts: seq<Act>) returns (run': seq<System>, acts': seq<Act>)
    requires IsRun(run, acts) && In(run[|acts|], 1) && run[|acts|].phases[1].Idle? && GoesFailsafe(run[|acts|].s, run[|acts|].pollers[1])
    ensures IsRun(run', acts')
    ensures run'[|acts'|] == At(run[|acts|], 1, Idle).(s := FailsafeWritten(run[|acts|].s, true), writer := Some(1))
  {
    var w := run[|acts|];
    run', acts' := Extend(run, acts, Ask(1, false));
    run', acts' := Extend(run', acts', Decide(1));
    run', acts' := Extend(run', acts', Fail(1));
    assert run'[|acts'|] == At(w, 1, Failed);
    run', acts' := Extend(run', acts', CheckFailsafe(1));
    run', acts' := Extend(run', acts', SetFailsafe(1, true));
  }

  /** From an empty system: one poller's last success is at 0 s, the other's at 190 s; at 200 s the first writes a
      failsafe value and the second extends it, although the API reports no alarm. */
  lemma FailsafeExtended() returns (run: seq<System>, acts: seq<Act>, k: nat)
    ensures IsRun(run, acts) && k < |acts| && Extends(run[k], acts[k], 2) && run[k].writer == Some(1)
    ensures run[k + 1].s.key.value.active && run[k + 1].s.states == [false]
  {
    run, acts := TwoPollers();
    run, acts := GoFailsafe(run, acts);
    run, acts := Extend(run, acts, Ask(2, true));
    run, acts := Extend(run, acts, Decide(2));
    k := |acts|;
    run, acts := Extend(run, acts, Expire(2));
  }
}
