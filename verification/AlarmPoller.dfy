/** The official-alarm cache with one poller. */
module AlarmPoller {
  // The poller refreshes, rewrites or replaces an expiring key. Times are in milliseconds. The API's state is a
  // function of its action index, and the index only grows.

  import opened Options

  const STATE_LIFE: nat := 90000
  const FULL_AFTER: nat := 45000
  const FAILSAFE_AFTER: nat := 180000

  datatype Refresh = Refresh(decided: nat, at: nat)

  /** Where a cached value came from; no process reads it. `fetched` and `index` are the moment and the API's
      index when a full poll read it, `written` the moment of its SET, `stamp` the moment the poller noted its
      success. */
  datatype Origin =
    | Polled(fetched: nat, index: nat, written: nat, stamp: nat, refresh: Option<Refresh>)
    | Failsafe(at: nat)

  datatype Cached = Cached(active: bool, expires: nat, origin: Origin)

  /** `states[i]` is the API's state at index `i`; the last one is the present. */
  datatype Shared = Shared(now: nat, states: seq<bool>, key: Option<Cached>)

  datatype Poller = Poller(lastIndex: Option<nat>, lastSuccess: Option<nat>)

  predicate Visible(s: Shared) {
    s.key.Some? && s.now < s.key.value.expires
  }

  predicate NeedsFull(s: Shared, p: Poller, index: Option<nat>) {
    index.None? || index != p.lastIndex || p.lastSuccess.None? || s.now - p.lastSuccess.value >= FULL_AFTER
  }

  predicate GoesFailsafe(s: Shared, p: Poller) {
    p.lastSuccess.None? || s.now - p.lastSuccess.value >= FAILSAFE_AFTER
  }

  /** EXPIRE of the key that is there. */
  function Refreshed(s: Shared, decided: nat): Shared
    requires s.key.Some?
  {
    var c := s.key.value;
    s.(key := Some(Cached(c.active, s.now + STATE_LIFE,
      if c.origin.Polled? then c.origin.(refresh := Some(Refresh(decided, s.now))) else c.origin)))
  }

  function Written(s: Shared, active: bool, fetched: nat, index: nat): Shared {
    s.(key := Some(Cached(active, s.now + STATE_LIFE, Polled(fetched, index, s.now, s.now, None))))
  }

  function FailsafeWritten(s: Shared, active: bool): Shared {
    s.(key := Some(Cached(active, s.now + STATE_LIFE, Failsafe(s.now))))
  }

  function Stamped(p: Poller, index: Option<nat>, now: nat): Poller {
    Poller(if index.Some? then index else p.lastIndex, Some(now))
  }

  function NoteStamp(s: Shared): Shared {
    s.(key := if s.key.Some? && s.key.value.origin.Polled?
              then Some(s.key.value.(origin := s.key.value.origin.(stamp := s.now))) else s.key)
  }

  /** Time passes and the API may move on. */
  ghost predicate Passes(s: Shared, s': Shared) {
    s.now <= s'.now && s.states <= s'.states && s'.key == s.key
  }

  // ---- What every state satisfies ----------------------------------------------------------------------

  /** The last moment at which the value was given 90 s to live. */
  function Renewed(o: Origin): nat {
    match o
    case Polled(_, _, written, _, refresh) => if refresh.Some? then refresh.value.at else written
    case Failsafe(at) => at
  }

  /** A polled value lives 90 s from its write or from a refresh decided less than 45 s after its stamp. */
  ghost predicate LifeOk(c: Cached)
    requires c.origin.Polled?
  {
    var o := c.origin;
    && o.fetched <= o.written <= o.stamp && c.expires == Renewed(o) + STATE_LIFE
    && (o.refresh.Some? ==>
          o.refresh.value.decided < o.stamp + FULL_AFTER &&
          o.refresh.value.decided <= o.refresh.value.at < o.refresh.value.decided + STATE_LIFE)
  }

  ghost predicate KeyOk(s: Shared, c: Cached) {
    match c.origin
    case Polled(fetched, index, _, stamp, _) =>
      index < |s.states| && c.active == s.states[index] && fetched <= stamp <= s.now && Renewed(c.origin) <= s.now && LifeOk(c)
    case Failsafe(at) => at <= s.now && c.expires == at + STATE_LIFE
  }

  /** The poller saw its last index no later than the cached value was read, and noted its last success no later
      than the value's stamp; a failsafe value means that it has had no success for 180 s. */
  ghost predicate KnowsKey(s: Shared, p: Poller, c: Cached) {
    match c.origin
    case Polled(_, index, _, stamp, _) =>
      && (p.lastIndex.Some? ==> p.lastIndex.value <= index)
      && (p.lastSuccess.Some? ==> p.lastSuccess.value <= stamp)
    case Failsafe(at) => p.lastSuccess.Some? ==> p.lastSuccess.value + FAILSAFE_AFTER <= at
  }

  ghost predicate Inv(s: Shared, p: Poller) {
    && s.states != []
    && (p.lastIndex.Some? ==> p.lastIndex.value < |s.states|)
    && (p.lastSuccess.Some? ==> p.lastSuccess.value <= s.now)
    && (s.key.Some? ==> KeyOk(s, s.key.value) && KnowsKey(s, p, s.key.value))
  }

  lemma PassKeeps(s: Shared, p: Poller, s': Shared)
    requires Inv(s, p) && Passes(s, s')
    ensures Inv(s', p)
  {
  }

  /** A refresh is decided only on a polled value, and that value is the API's state at the index just read. */
  lemma RefreshIsCurrent(s: Shared, p: Poller, index: nat, seen: Shared)
    requires Inv(s, p) && !NeedsFull(s, p, Some(index)) && s.key.Some?
    requires index == |seen.states| - 1 && seen.states <= s.states
    requires s.key.value.origin.Polled? ==> s.key.value.origin.index < |seen.states|
    ensures s.key.value.origin.Polled? && s.key.value.origin.index == index && s.key.value.active == s.states[index]
    ensures Renewed(s.key.value.origin) <= s.now
  {
  }

  lemma RefreshKeeps(s: Shared, p: Poller, decided: nat)
    requires Inv(s, p) && Visible(s) && s.key.value.origin.Polled?
    requires Renewed(s.key.value.origin) <= decided <= s.now && decided < s.key.value.origin.stamp + FULL_AFTER
    ensures Inv(Refreshed(s, decided), p)
  {
  }

  lemma WriteKeeps(s: Shared, p: Poller, active: bool, fetched: nat, index: nat)
    requires Inv(s, p) && fetched <= s.now && index < |s.states| && active == s.states[index]
    requires p.lastIndex.Some? ==> p.lastIndex.value <= index
    ensures Inv(Written(s, active, fetched, index), p)
  {
  }

  lemma StampKeeps(s: Shared, p: Poller, index: Option<nat>)
    requires Inv(s, p) && s.key.Some? && s.key.value.origin.Polled? && s.key.value.origin.refresh.None?
    requires index.Some? ==> index.value <= s.key.value.origin.index
    ensures Inv(NoteStamp(s), Stamped(p, index, s.now))
  {
  }

  lemma Bounds(s: Shared, p: Poller)
    requires Inv(s, p)
    ensures s.states != [] && (p.lastIndex.Some? ==> p.lastIndex.value < |s.states|)
  {
  }

  class AlarmStatePoller {
    var now: nat
    var states: seq<bool>
    var key: Option<Cached>
    var lastIndex: Option<nat>
    var lastSuccess: Option<nat>

    function World(): Shared
      reads this
    {
      Shared(now, states, key)
    }

    function Memory(): Poller
      reads this
    {
      Poller(lastIndex, lastSuccess)
    }

    /** A poller that starts knows nothing of the key it may find. */
    constructor (s: Shared)
      requires s.states != [] && (s.key.Some? ==> KeyOk(s, s.key.value))
      ensures World() == s && Inv(World(), Memory())
    {
      now, states, key := s.now, s.states, s.key;
      lastIndex, lastSuccess := None, None;
    }

    method Pass()
      requires Inv(World(), Memory())
      modifies this`now, this`states
      ensures Inv(World(), Memory()) && Passes(old(World()), World())
    {
      ghost var s := World();
      var later: nat :| now <= later;
      now := later;
      var changes: seq<bool> := *;
      states := states + changes;
      PassKeeps(s, Memory(), World());
    }

    /** _poll_once. `index` is the API's index when the status was read; every call may fail, with or without
        having had its effect. */
    method PollOnce() returns (done: bool, refreshed: bool, ghost index: nat)
      requires Inv(World(), Memory())
      modifies this
      ensures Inv(World(), Memory())
      ensures refreshed ==> old(key).Some? && old(key).value.origin.Polled? && key.Some? && key.value.origin.Polled?
      ensures refreshed ==> |old(states)| <= index + 1 <= |states| && key.value.active == states[index]
      ensures refreshed ==> lastIndex == old(lastIndex) && lastSuccess == old(lastSuccess)
    {
      refreshed, index := false, 0;
      Pass();
      ghost var seen := World();
      index := |states| - 1;
      var readable: bool := *;
      var read: Option<nat> := if readable then Some(|states| - 1) else None;
      Pass();
      var decided := now;
      if !NeedsFull(World(), Memory(), read) {
        ghost var s := World();
        if key.Some? {
          RefreshIsCurrent(s, Memory(), index, seen);
        }
        Pass();
        var reached: bool := *;
        if !reached { return false, false, index; }
        if Visible(World()) {
          RefreshKeeps(World(), Memory(), decided);
          key := Refreshed(World(), decided).key;
          refreshed := true;
          done := *;
          return;
        }
      }
      done := FullPoll(read);
    }

    /** The full poll: read the alerts, SET the key, note the success. */
    method FullPoll(read: Option<nat>) returns (done: bool)
      requires Inv(World(), Memory()) && (read.Some? ==> read.value < |states|)
      modifies this
      ensures Inv(World(), Memory())
      ensures done ==> key.Some? && key.value.origin.Polled? && lastSuccess == Some(now) && (read.Some? ==> lastIndex == read)
      ensures !done ==> lastIndex == old(lastIndex) && lastSuccess == old(lastSuccess)
    {
      hide Inv;
      Pass();
      Bounds(World(), Memory());
      var answered: bool := *;
      if !answered { return false; }
      var fetched, index := now, |states| - 1;
      var active := states[index];
      Pass();
      var reached: bool := *;
      if !reached { return false; }
      WriteKeeps(World(), Memory(), active, fetched, index);
      key := Written(World(), active, fetched, index).key;
      var confirmed: bool := *;
      if !confirmed { return false; }
      Pass();
      StampKeeps(World(), Memory(), read);
      key := NoteStamp(World()).key;
      lastSuccess := Some(now);
      if read.Some? {
        lastIndex := read;
      }
      return true;
    }

    /** _maybe_failsafe */
    method MaybeFailsafe(active: bool)
      requires Inv(World(), Memory())
      modifies this`key
      ensures Inv(World(), Memory())
      ensures World() == if GoesFailsafe(old(World()), Memory()) then FailsafeWritten(old(World()), active) else old(World())
      ensures if lastSuccess.Some? && now < lastSuccess.value + 180 * 1000 then key == old(key)
              else key == Some(Cached(active, now + 90 * 1000, Failsafe(now)))
    {
      if lastSuccess.Some? && now - lastSuccess.value < FAILSAFE_AFTER { return; }
      key := Some(Cached(active, now + STATE_LIFE, Failsafe(now)));
    }

    /** The polling loop, for any number of rounds. */
    method Run(rounds: nat, active: bool)
      requires Inv(World(), Memory())
      modifies this
      ensures Inv(World(), Memory())
    {
      for i := 0 to rounds
        invariant Inv(World(), Memory())
      {
        ghost var index;
        var done, refreshed;
        done, refreshed, index := PollOnce();
        if !done {
          MaybeFailsafe(active);
        }
        Pass();
      }
    }
  }

  // ---- How long a value can be seen ------------------------------------------------------------------------

  /** The delays a caller can bound: from reading the API to noting the success, and from deciding to refresh to the
      refresh's effect. */
  predicate Within(s: Shared, poll: nat, refresh: nat) {
    && s.key.Some? && s.key.value.origin.Polled?
    && s.key.value.origin.stamp - s.key.value.origin.fetched <= poll
    && (s.key.value.origin.refresh.Some? ==>
          s.key.value.origin.refresh.value.at - s.key.value.origin.refresh.value.decided <= refresh)
  }

  /** How long after its poll a polled value can be seen. */
  function Age(s: Shared): int
    requires s.key.Some? && s.key.value.origin.Polled?
  {
    s.key.value.expires - s.key.value.origin.fetched
  }

  /** A refresh reaches a key that is still there, so no more than its life counts of the refresh's delay. */
  function Effective(refresh: nat): nat {
    if refresh < STATE_LIFE then refresh else STATE_LIFE - 1
  }

  /** A polled value ends less than 135 s after its poll, plus the poll's and the refresh's own delay. */
  lemma Staleness(s: Shared, p: Poller, poll: nat, refresh: nat)
    requires Inv(s, p) && Within(s, poll, refresh)
    ensures Age(s) < STATE_LIFE + FULL_AFTER + poll + Effective(refresh)
  {
  }

  /** A poll that takes `poll`, and two refreshes decided at the last possible moment of which the second takes
      `refresh`: the value can be seen for 135 s and both delays, less a millisecond. The two are decided in the same
      millisecond, so the interval between two polls is taken as 0. */
  lemma LatestValue(poll: nat, refresh: nat) returns (s: Shared, p: Poller)
    ensures Inv(s, p) && Within(s, poll, refresh) && Visible(s)
    ensures Age(s) == STATE_LIFE + FULL_AFTER + poll + Effective(refresh) - 1
    ensures s.now == poll + FULL_AFTER - 1 + Effective(refresh) && s.key.value.origin.refresh.Some?
  {
    var atWrite := Shared(poll, [true], None);
    var p0 := Poller(None, None);
    WriteKeeps(atWrite, p0, true, 0, 0);
    var written := Written(atWrite, true, 0, 0);
    StampKeeps(written, p0, Some(0));
    var stamped := NoteStamp(written);
    p := Stamped(p0, Some(0), poll);
    var decided := poll + FULL_AFTER - 1;
    var atDecision := stamped.(now := decided);
    PassKeeps(stamped, p, atDecision);
    assert !NeedsFull(atDecision, p, Some(0));
    RefreshKeeps(atDecision, p, decided);
    var first := Refreshed(atDecision, decided);
    assert !NeedsFull(first, p, Some(0));
    var later := first.(now := decided + Effective(refresh));
    PassKeeps(first, p, later);
    assert Visible(later);
    RefreshKeeps(later, p, decided);
    s := Refreshed(later, decided);
  }

  /** For any bound on the two delays, the values all end before `limit` if and only if `limit` leaves 135 s and both
      delays. So the bare 135 s hold exactly when neither a poll nor a refresh takes any time. */
  lemma BoundIff(poll: nat, refresh: nat, limit: int)
    ensures (forall s, p {:trigger Inv(s, p), Within(s, poll, refresh)} :: Inv(s, p) && Within(s, poll, refresh) ==> Age(s) < limit)
       <==> limit >= STATE_LIFE + FULL_AFTER + poll + Effective(refresh)
  {
    forall s, p | Inv(s, p) && Within(s, poll, refresh) && limit >= STATE_LIFE + FULL_AFTER + poll + Effective(refresh)
      ensures Age(s) < limit
    {
      Staleness(s, p, poll, refresh);
    }
    var s, p := LatestValue(poll, refresh);
    assert Inv(s, p) && Within(s, poll, refresh);
  }

  /** One value meets the 135 s bound if and only if it was last written or refreshed less than 45 s after its poll. */
  lemma ValueMeetsBoundIff(s: Shared, p: Poller)
    requires Inv(s, p) && s.key.Some? && s.key.value.origin.Polled?
    ensures var o := s.key.value.origin;
      Age(s) < STATE_LIFE + FULL_AFTER <==>
        if o.refresh.None? then o.written - o.fetched < FULL_AFTER else o.refresh.value.at - o.fetched < FULL_AFTER
  {
  }

  /** A value whose SET lands 50 s after it was read can be seen after 135 s without any refresh. */
  lemma SlowWriteExceedsBound() returns (s: Shared, p: Poller)
    ensures Inv(s, p) && Visible(s) && s.key.value.origin.Polled? && s.key.value.origin.refresh.None?
    ensures s.now >= s.key.value.origin.fetched + STATE_LIFE + FULL_AFTER
  {
    var start := Shared(50000, [true], None);
    p := Poller(None, None);
    var written := Written(start, true, 0, 0);
    WriteKeeps(start, p, true, 0, 0);
    s := written.(now := 136000);
    PassKeeps(written, p, s);
  }

  /** A refresh decided at 44.999 s that reaches the server at 46 s keeps the value visible at 135 s. */
  lemma SlowRefreshExceedsBound() returns (s: Shared, p: Poller)
    ensures Inv(s, p) && Visible(s) && s.key.value.origin.Polled? && s.key.value.origin.refresh.Some?
    ensures s.now >= s.key.value.origin.fetched + STATE_LIFE + FULL_AFTER
  {
    var refreshed;
    refreshed, p := LatestValue(0, 1001);
    s := refreshed.(now := 135000);
    PassKeeps(refreshed, p, s);
  }

  // ---- Failsafe values -----------------------------------------------------------------------------------------

  /** One poller never extends its own failsafe value: whatever index it reads, it polls in full. */
  lemma OwnFailsafeNotRefreshed(s: Shared, p: Poller, index: Option<nat>)
    requires Inv(s, p) && s.key.Some? && s.key.value.origin.Failsafe?
    ensures NeedsFull(s, p, index)
  {
  }
}
