/** Trimming a stream at the running minimum of its groups' positions. */
module StreamRetention {
  import opened Options

  /** A stream id: milliseconds and a sequence number within them. */
  datatype Id = Id(ms: nat, number: nat)

  const ZERO := Id(0, 0)

  predicate Less(a: Id, b: Id) {
    a.ms < b.ms || (a.ms == b.ms && a.number < b.number)
  }

  /** `delivered` is the group's last delivered id. */
  datatype Group = Group(delivered: Id, pending: set<Id>)

  datatype Stream = Stream(present: bool, entries: set<Id>, last: Id, groups: map<string, Group>)

  predicate GroupOk(g: Group) {
    forall p :: p in g.pending ==> Less(ZERO, p) && !Less(g.delivered, p)
  }

  predicate StreamOk(s: Stream) {
    forall name :: name in s.groups ==> GroupOk(s.groups[name])
  }

  /** The group has been given everything up to `id` and beyond, and nothing up to `id` is pending. */
  predicate PassedBy(g: Group, id: Id) {
    Less(id, g.delivered) && forall p :: p in g.pending ==> Less(id, p)
  }

  predicate Passed(s: Stream, id: Id) {
    s.present && s.groups.Keys != {} && forall name :: name in s.groups ==> PassedBy(s.groups[name], id)
  }

  /** Trimming removes exactly the entries that every group has passed. */
  function Trimmed(s: Stream): Stream {
    s.(entries := set id | id in s.entries && !Passed(s, id))
  }

  // ---- The script --------------------------------------------------------------------------------------

  /** XPENDING reports the least pending id of a group that has any. */
  ghost predicate IsCandidate(g: Group, c: Id) {
    if g.pending == {} then c == g.delivered
    else c in g.pending && forall p :: p in g.pending ==> !Less(p, c)
  }

  lemma {:induction false} LeastPending(pending: set<Id>)
    ensures pending == {} || exists c :: c in pending && forall p :: p in pending ==> !Less(p, c)
    decreases |pending|
  {
    if x :| x in pending {
      LeastPending(pending - {x});
      assert forall p :: p in pending ==> p == x || p in pending - {x};
      if m :| m in pending - {x} && forall p :: p in pending - {x} ==> !Less(p, m) {
        var least := if Less(m, x) then m else x;
        assert least in pending && forall p :: p in pending ==> !Less(p, least);
      } else {
        assert x in pending && forall p :: p in pending ==> !Less(p, x);
      }
    } else {
      assert forall p :: p in pending <==> p in {};
    }
  }

  lemma CandidatePasses(g: Group, c: Id, id: Id)
    requires GroupOk(g) && IsCandidate(g, c)
    ensures PassedBy(g, id) <==> Less(id, c)
  {
  }

  class StreamKey {
    var present: bool
    var entries: set<Id>
    var last: Id
    var groups: map<string, Group>

    function State(): Stream
      reads this
    {
      Stream(present, entries, last, groups)
    }

    constructor (s: Stream)
      ensures State() == s
    {
      present, entries, last, groups := s.present, s.entries, s.last, s.groups;
    }

    method Candidate(name: string) returns (c: Id)
      requires name in groups
      ensures IsCandidate(groups[name], c)
    {
      var g := groups[name];
      LeastPending(g.pending);
      if g.pending == {} { return g.delivered; }
      c :| c in g.pending && forall p :: p in g.pending ==> !Less(p, c);
    }

    /** XTRIM MINID = floor */
    method TrimBelow(floor: Id) returns (removed: nat)
      modifies this`entries
      ensures entries == (set id | id in old(entries) && !Less(id, floor))
      ensures removed == |old(entries) - entries|
    {
      var kept := set id | id in entries && !Less(id, floor);
      removed := |entries - kept|;
      entries := kept;
    }

    /** TRIM_ACKNOWLEDGED_LUA: the running minimum over the groups, in whatever order they are listed. */
    method TrimAcknowledged() returns (removed: nat)
      requires StreamOk(State())
      modifies this`entries
      ensures State() == Trimmed(old(State())) && removed == |old(entries) - entries|
    {
      ghost var s := State();
      if !present || groups.Keys == {} {
        NothingPasses(s);
        return 0;
      }
      var floor: Option<Id> := None;
      var rest := groups.Keys;
      while rest != {}
        invariant rest <= groups.Keys && (floor.None? ==> rest == groups.Keys)
        invariant State() == s && FloorOf(s, rest, floor)
        decreases |rest|
      {
        hide FloorOf, Trimmed;
        var name :| name in rest;
        var candidate := Candidate(name);
        if candidate == ZERO {
          NothingBelowZero(s, name);
          return 0;
        }
        FloorStep(s, rest, floor, name, candidate);
        if floor.None? || Less(candidate, floor.value) {
          floor := Some(candidate);
        }
        rest := rest - {name};
      }
      FloorDone(s, floor);
      removed := TrimBelow(floor.value);
    }
  }

  /** Below the floor lies exactly what the groups looked at so far have passed. */
  ghost predicate FloorOf(s: Stream, rest: set<string>, floor: Option<Id>) {
    floor.Some? ==> forall id :: Less(id, floor.value) <==>
      forall name :: name in s.groups && name !in rest ==> PassedBy(s.groups[name], id)
  }

  lemma FloorStep(s: Stream, rest: set<string>, floor: Option<Id>, name: string, candidate: Id)
    requires StreamOk(s) && rest <= s.groups.Keys && name in rest && (floor.None? ==> rest == s.groups.Keys)
    requires FloorOf(s, rest, floor) && IsCandidate(s.groups[name], candidate)
    ensures FloorOf(s, rest - {name}, if floor.None? || Less(candidate, floor.value) then Some(candidate) else floor)
  {
  }

  lemma FloorDone(s: Stream, floor: Option<Id>)
    requires s.present && s.groups.Keys != {} && floor.Some? && FloorOf(s, {}, floor)
    ensures (set id | id in s.entries && !Less(id, floor.value)) == Trimmed(s).entries
  {
    forall id ensures Passed(s, id) <==> Less(id, floor.value) {
    }
  }

  lemma NothingPasses(s: Stream)
    requires !s.present || s.groups.Keys == {}
    ensures Trimmed(s) == s
  {
  }

  lemma NothingBelowZero(s: Stream, name: string)
    requires StreamOk(s) && name in s.groups && IsCandidate(s.groups[name], ZERO)
    ensures Trimmed(s) == s
  {
    forall id ensures !Passed(s, id) {
      CandidatePasses(s.groups[name], ZERO, id);
    }
    assert Trimmed(s).entries == s.entries;
  }

  // ---- Runs ----------------------------------------------------------------------------------------------

  datatype Action =
    | Add(id: Id)
    | CreateGroup(name: string)
    | Read(name: string, id: Id)
    | Ack(name: string, id: Id)
    | Forget(name: string, id: Id)
    | DropConsumer(name: string, records: set<Id>)
    | Remove(id: Id)
    | Trim

  /** What each group was given and how each pending record ended: acknowledged, dropped together with its
      consumer, or forgotten because the entry had been removed. No process reads these. */
  datatype History = History(given: set<(string, Id)>, acked: set<(string, Id)>, dropped: set<(string, Id)>, forgotten: set<(string, Id)>)

  datatype World = World(s: Stream, h: History)

  predicate Enabled(w: World, a: Action) {
    match a
    case Add(id) => Less(w.s.last, id)
    case CreateGroup(name) => name !in w.s.groups
    case Read(name, id) =>
      name in w.s.groups && id in w.s.entries && Less(w.s.groups[name].delivered, id) &&
      forall e :: e in w.s.entries && Less(w.s.groups[name].delivered, e) ==> !Less(e, id)
    case Ack(name, id) => name in w.s.groups && id in w.s.groups[name].pending
    case Forget(name, id) => name in w.s.groups && id in w.s.groups[name].pending && id !in w.s.entries
    case DropConsumer(name, records) => name in w.s.groups && records <= w.s.groups[name].pending
    case Remove(_) => true
    case Trim => true
  }

  function WithoutPending(s: Stream, name: string, gone: set<Id>): Stream
    requires name in s.groups
  {
    s.(groups := s.groups[name := s.groups[name].(pending := s.groups[name].pending - gone)])
  }

  function Of(name: string, ids: set<Id>): set<(string, Id)> {
    set id | id in ids :: (name, id)
  }

  /** XAUTOCLAIM of a live entry only changes its owner, which is not kept here; of a removed one it forgets it.
      XGROUP DELCONSUMER takes whatever records the consumer has at that moment. */
  function After(w: World, a: Action): World
    requires Enabled(w, a)
  {
    var s := w.s;
    match a
    case Add(id) => w.(s := s.(present := true, entries := s.entries + {id}, last := id))
    case CreateGroup(name) => w.(s := s.(present := true, groups := s.groups[name := Group(ZERO, {})]))
    case Read(name, id) =>
      World(s.(groups := s.groups[name := Group(id, s.groups[name].pending + {id})]), w.h.(given := w.h.given + {(name, id)}))
    case Ack(name, id) => World(WithoutPending(s, name, {id}), w.h.(acked := w.h.acked + {(name, id)}))
    case Forget(name, id) => World(WithoutPending(s, name, {id}), w.h.(forgotten := w.h.forgotten + {(name, id)}))
    case DropConsumer(name, records) =>
      World(WithoutPending(s, name, records), w.h.(dropped := w.h.dropped + Of(name, records)))
    case Remove(id) => w.(s := s.(entries := s.entries - {id}))
    case Trim => w.(s := Trimmed(s))
  }

  ghost predicate IsRun(run: seq<World>, acts: seq<Action>) {
    && |run| == |acts| + 1 && run[0] == World(Stream(false, {}, ZERO, map[]), History({}, {}, {}, {}))
    && forall i :: 0 <= i < |acts| ==> Enabled(run[i], acts[i]) && run[i + 1] == After(run[i], acts[i])
  }

  /** The group is through with a record it was given. */
  predicate Ended(w: World, name: string, id: Id) {
    (name, id) in w.h.acked || (name, id) in w.h.dropped || (name, id) in w.h.forgotten
  }

  /** A group's pending records are what it was given and has not ended, and its position is the last it was given. */
  ghost predicate Recorded(w: World, name: string, id: Id) {
    && (Ended(w, name, id) ==> (name, id) in w.h.given)
    && ((name, id) in w.h.given ==> name in w.s.groups && Less(ZERO, id) && !Less(w.s.groups[name].delivered, id))
    && (name in w.s.groups ==> (id in w.s.groups[name].pending <==> (name, id) in w.h.given && !Ended(w, name, id)))
    && ((name, id) in w.h.forgotten ==> id !in w.s.entries && !Less(w.s.last, id))
  }

  /** Every entry up to a group's position was given to it. */
  ghost predicate Accounted(w: World, name: string, id: Id)
    requires name in w.s.groups
  {
    Less(w.s.groups[name].delivered, id) || (name, id) in w.h.given
  }

  ghost predicate PositionOk(w: World, name: string)
    requires name in w.s.groups
  {
    var d := w.s.groups[name].delivered;
    w.s.present && !Less(w.s.last, d) && (d == ZERO || (name, d) in w.h.given)
  }

  ghost predicate Inv(w: World) {
    && (forall id :: id in w.s.entries ==> Less(ZERO, id) && !Less(w.s.last, id))
    && (forall name {:trigger PositionOk(w, name)} :: name in w.s.groups ==> PositionOk(w, name))
    && (forall name, id {:trigger Recorded(w, name, id)} :: Recorded(w, name, id))
    && (forall name, id {:trigger Accounted(w, name, id)} :: name in w.s.groups && id in w.s.entries ==> Accounted(w, name, id))
  }

  lemma KeepAccounted(w: World, a: Action, name: string, id: Id)
    requires Inv(w) && Enabled(w, a) && name in After(w, a).s.groups && id in After(w, a).s.entries
    ensures Accounted(After(w, a), name, id)
  {
    if name in w.s.groups {
      assert PositionOk(w, name);
      assert id in w.s.entries ==> Accounted(w, name, id);
    }
  }

  lemma KeepRecorded(w: World, a: Action, name: string, id: Id)
    requires Inv(w) && Enabled(w, a)
    ensures Recorded(After(w, a), name, id)
  {
    assert Recorded(w, name, id);
    if name in w.s.groups {
      assert PositionOk(w, name);
    }
  }

  lemma KeepPosition(w: World, a: Action, name: string)
    requires Inv(w) && Enabled(w, a) && name in After(w, a).s.groups
    ensures PositionOk(After(w, a), name)
  {
    if name in w.s.groups {
      assert PositionOk(w, name);
    }
  }

  lemma KeepStep(w: World, a: Action)
    requires Inv(w) && Enabled(w, a)
    ensures Inv(After(w, a))
  {
    var w' := After(w, a);
    assert forall id :: id in w'.s.entries ==> Less(ZERO, id) && !Less(w'.s.last, id);
    hide After, Enabled, Recorded, Accounted, PositionOk;
    forall name, id {:trigger Accounted(w', name, id)} | name in w'.s.groups && id in w'.s.entries
      ensures Accounted(w', name, id)
    {
      KeepAccounted(w, a, name, id);
    }
    forall name, id {:trigger Recorded(w', name, id)} ensures Recorded(w', name, id) {
      KeepRecorded(w, a, name, id);
    }
    forall name {:trigger PositionOk(w', name)} | name in w'.s.groups ensures PositionOk(w', name) {
      KeepPosition(w, a, name);
    }
  }

  lemma {:induction false} Reachable(run: seq<World>, acts: seq<Action>, i: nat)
    requires IsRun(run, acts) && i < |run|
    ensures Inv(run[i])
  {
    if i > 0 {
      Reachable(run, acts, i - 1);
      KeepStep(run[i - 1], acts[i - 1]);
    }
  }

  /** What the script needs of its caller holds in every run. */
  lemma GroupsOk(run: seq<World>, acts: seq<Action>, i: nat)
    requires IsRun(run, acts) && i < |run|
    ensures StreamOk(run[i].s)
  {
    Reachable(run, acts, i);
    forall name, p | name in run[i].s.groups && p in run[i].s.groups[name].pending
      ensures Less(ZERO, p) && !Less(run[i].s.groups[name].delivered, p)
    {
      assert Recorded(run[i], name, p);
    }
  }

  /** An entry leaves the stream only by explicit removal, or by a trim after every group has been given it and
      has acknowledged it, or lost its record together with a consumer. */
  lemma EntryLeavesSafely(run: seq<World>, acts: seq<Action>, k: nat, id: Id)
    requires IsRun(run, acts) && k < |acts| && id in run[k].s.entries && id !in run[k + 1].s.entries
    ensures acts[k] == Remove(id) || acts[k].Trim?
    ensures acts[k].Trim? ==> run[k].s.groups.Keys != {} && forall name :: name in run[k].s.groups ==>
              (name, id) in run[k].h.given && ((name, id) in run[k].h.acked || (name, id) in run[k].h.dropped)
  {
    Reachable(run, acts, k);
    var w := run[k];
    assert run[k + 1] == After(w, acts[k]);
    if acts[k].Trim? {
      forall name | name in w.s.groups
        ensures (name, id) in w.h.given && ((name, id) in w.h.acked || (name, id) in w.h.dropped)
      {
        assert PassedBy(w.s.groups[name], id) && Accounted(w, name, id) && Recorded(w, name, id);
      }
    }
  }

  /** Nothing was ever dropped if every consumer had no record at the moment it was removed. */
  lemma {:induction false} EmptyConsumersDropNothing(run: seq<World>, acts: seq<Action>, i: nat)
    requires IsRun(run, acts) && i < |run|
    requires forall m :: 0 <= m < i && acts[m].DropConsumer? ==> acts[m].records == {}
    ensures run[i].h.dropped == {}
  {
    if i > 0 {
      EmptyConsumersDropNothing(run, acts, i - 1);
      assert run[i] == After(run[i - 1], acts[i - 1]);
    }
  }

  /** The group was given a later entry and is through with everything it was given up to this one. */
  ghost predicate Finished(w: World, name: string, id: Id) {
    && (exists e :: (name, e) in w.h.given && Less(id, e))
    && (forall e :: (name, e) in w.h.given && !Less(id, e) ==> Ended(w, name, e))
  }

  lemma FinishedIffPassed(w: World, name: string, id: Id)
    requires Inv(w) && name in w.s.groups && Less(ZERO, id)
    ensures Finished(w, name, id) <==> PassedBy(w.s.groups[name], id)
  {
    var g := w.s.groups[name];
    assert PositionOk(w, name);
    if PassedBy(g, id) {
      assert (name, g.delivered) in w.h.given;
      forall e | (name, e) in w.h.given && !Less(id, e) ensures Ended(w, name, e) {
        assert Recorded(w, name, e);
      }
    }
    if Finished(w, name, id) {
      var e :| (name, e) in w.h.given && Less(id, e);
      assert Recorded(w, name, e);
      forall p | p in g.pending ensures Less(id, p) {
        assert Recorded(w, name, p);
      }
    }
  }

  /** In terms of what the groups did: a trim takes an entry if and only if there is a group, and every group was
      given something later and is through with everything it was given up to that entry. */
  lemma TrimTakesFinished(run: seq<World>, acts: seq<Action>, k: nat, id: Id)
    requires IsRun(run, acts) && k < |acts| && acts[k].Trim? && id in run[k].s.entries
    ensures id !in run[k + 1].s.entries <==>
            run[k].s.groups.Keys != {} && forall name :: name in run[k].s.groups ==> Finished(run[k], name, id)
  {
    Reachable(run, acts, k);
    var w := run[k];
    assert run[k + 1] == After(w, acts[k]);
    forall name | name in w.s.groups
      ensures (Finished(w, name, id) <==> PassedBy(w.s.groups[name], id)) && w.s.present
    {
      assert PositionOk(w, name);
      FinishedIffPassed(w, name, id);
    }
  }

  lemma Extend(run: seq<World>, acts: seq<Action>, a: Action) returns (run': seq<World>, acts': seq<Action>)
    requires IsRun(run, acts) && Enabled(run[|acts|], a)
    ensures IsRun(run', acts') && |acts'| == |acts| + 1
    ensures acts'[|acts|] == a && run'[|acts|] == run[|acts|] && run'[|acts| + 1] == After(run[|acts|], a)
  {
    run', acts' := run + [After(run[|acts|], a)], acts + [a];
  }

  /** One group, which was given the only entry and lost its record with a consumer. */
  lemma OneRecordDropped() returns (run: seq<World>, acts: seq<Action>)
    ensures IsRun(run, acts)
    ensures var w := run[|acts|];
      && w.s.entries == {Id(1, 0)} && w.s.last == Id(1, 0) && w.s.groups.Keys == {"workers"}
      && w.s.groups["workers"] == Group(Id(1, 0), {}) && w.h.acked == {}
  {
    run, acts := [World(Stream(false, {}, ZERO, map[]), History({}, {}, {}, {}))], [];
    run, acts := Extend(run, acts, CreateGroup("workers"));
    run, acts := Extend(run, acts, Add(Id(1, 0)));
    assert run[|acts|].s.entries == {Id(1, 0)};
    run, acts := Extend(run, acts, Read("workers", Id(1, 0)));
    run, acts := Extend(run, acts, DropConsumer("workers", {Id(1, 0)}));
  }

  /** A consumer removed while it holds a record: its entry is trimmed although the group never acknowledged it. */
  lemma DroppedRecordIsTrimmed() returns (run: seq<World>, acts: seq<Action>)
    ensures IsRun(run, acts) && |acts| > 0
    ensures acts[|acts| - 1].Trim? && Id(1, 0) in run[|acts| - 1].s.entries && Id(1, 0) !in run[|acts|].s.entries
    ensures ("workers", Id(1, 0)) !in run[|acts|].h.acked
  {
    hide Trimmed;
    run, acts := OneRecordDropped();
    run, acts := Extend(run, acts, Add(Id(2, 0)));
    assert run[|acts|].s.entries == {Id(1, 0), Id(2, 0)};
    run, acts := Extend(run, acts, Read("workers", Id(2, 0)));
    assert "workers" in run[|acts|].s.groups.Keys;
    TrimsPassed(run[|acts|].s, Id(1, 0));
    run, acts := Extend(run, acts, Trim);
  }

  lemma TrimsPassed(s: Stream, id: Id)
    requires id in s.entries && Passed(s, id)
    ensures id !in Trimmed(s).entries
  {
  }
}
