/** From the source channel to the source stream. */
module Ingestion {
  // Outbox, checkpoint and publish-once marker, shared by the live handler, the outbox replay and the history
  // catch-up. Times are in seconds.

  import opened Options
  import opened Paging

  const MARKER_LIFE: nat := 2592000
  const BOOTSTRAP_WINDOW: nat := 900
  const CLOCK_SKEW: nat := 300
  const MAX_TEXT: nat := 4096

  datatype Key = Key(chat: int, message: int)

  /** `seen` is the instant at which the post appeared in the channel. */
  datatype Post = Post(id: int, date: Option<int>, text: string, seen: nat)

  datatype Entry = Entry(key: Key, post: Post, at: nat)

  /** `floors` records, per channel, the newest post that a bootstrap scan stopped at; no process reads it. */
  datatype State = State(
    now: nat,
    channels: map<int, seq<Post>>,
    pending: map<Key, Post>,
    checkpoints: map<int, int>,
    floors: map<int, Option<int>>,
    markers: map<Key, nat>,
    stream: seq<Entry>
  )

  /** What the scan of a channel left out at its old end. */
  datatype Start = FromCheckpoint(id: int) | FromWindow(stop: Option<int>)

  datatype Action =
    | Tick(seconds: nat)
    | Arrive(chat: int, post: Post)
    | Put(key: Key, post: Post)
    | Publish(key: Key, post: Post)
    | Delete(key: Key)
    | Advance(chat: int, to: int, start: Start)

  function Posts(s: State, chat: int): seq<Post> {
    if chat in s.channels then s.channels[chat] else []
  }

  /** The message contract, as checked when the post is captured. */
  predicate Accepts(p: Post, now: nat) {
    p.text != "" && |p.text| <= MAX_TEXT && p.date.Some? && p.date.value - now <= CLOCK_SKEW
  }

  /** What a post has to be at a certain time: some text of at most 4096 characters, and dated, by no more than five
      minutes ahead. */
  predicate Meets(p: Post, clock: int) {
    0 < |p.text| <= 4096 && p.date.Some? && p.date.value <= clock + 300
  }

  /** It was so from the moment it appeared. */
  predicate Valid(p: Post) {
    Meets(p, p.seen)
  }

  lemma AcceptsIff(p: Post, now: nat)
    ensures Accepts(p, now) <==> Meets(p, now)
  {
    assert p.text == "" <==> |p.text| == 0;
  }

  predicate Published(s: State, key: Key) {
    exists i :: 0 <= i < |s.stream| && s.stream[i].key == key
  }

  predicate Safe(s: State, key: Key) {
    key in s.pending || Published(s, key)
  }

  predicate Covered(s: State, chat: int, after: Option<int>, to: int) {
    forall p :: p in Posts(s, chat) && Valid(p) && Above(after, p.id) && p.id <= to ==> Safe(s, Key(chat, p.id))
  }

  /** The channel has a post at or beyond `id`; posts that appear later lie beyond it too. */
  predicate Reaches(s: State, chat: int, id: int) {
    exists p :: p in Posts(s, chat) && id <= p.id
  }

  predicate StartHolds(s: State, chat: int, to: int, start: Start) {
    match start
    case FromCheckpoint(id) => chat in s.checkpoints && id <= s.checkpoints[chat] && Covered(s, chat, Some(id), to)
    case FromWindow(stop) => Covered(s, chat, stop, to)
  }

  predicate IsPost(s: State, key: Key, p: Post) {
    p in Posts(s, key.chat) && p.id == key.message
  }

  predicate Enabled(s: State, a: Action) {
    match a
    case Tick(_) => true
    case Arrive(chat, p) => p.seen == s.now && forall q :: q in Posts(s, chat) ==> q.id < p.id
    case Put(key, p) => IsPost(s, key, p)
    case Publish(key, p) => IsPost(s, key, p)
    case Delete(key) => Published(s, key)
    case Advance(chat, to, start) => Reaches(s, chat, to) && StartHolds(s, chat, to, start)
  }

  /** INSERT OR IGNORE */
  function Stored(s: State, key: Key, p: Post): State {
    s.(pending := if key in s.pending then s.pending else s.pending[key := p])
  }

  predicate Marked(s: State, key: Key) {
    key in s.markers && s.now < s.markers[key]
  }

  /** PUBLISH_ONCE_LUA */
  function PublishedOnce(s: State, key: Key, p: Post): State {
    if Marked(s, key) then s
    else s.(stream := s.stream + [Entry(key, p, s.now)], markers := s.markers[key := s.now + MARKER_LIFE])
  }

  function Higher(a: Option<int>, b: Option<int>): (r: Option<int>)
    ensures forall k :: Above(r, k) <==> Above(a, k) && Above(b, k)
  {
    if a.None? then b else if b.None? || b.value <= a.value then a else b
  }

  /** The checkpoint never moves back. */
  function Advanced(s: State, chat: int, to: int, start: Start): State {
    var floor := if chat in s.floors then s.floors[chat] else None;
    s.(checkpoints := s.checkpoints[chat := if chat in s.checkpoints && to < s.checkpoints[chat] then s.checkpoints[chat] else to],
       floors := s.floors[chat := if start.FromWindow? then Higher(floor, start.stop) else floor])
  }

  function After(s: State, a: Action): State {
    match a
    case Tick(seconds) => s.(now := s.now + seconds)
    case Arrive(chat, p) => s.(channels := s.channels[chat := Posts(s, chat) + [p]])
    case Put(key, p) => Stored(s, key, p)
    case Publish(key, p) => PublishedOnce(s, key, p)
    case Delete(key) => s.(pending := s.pending - {key})
    case Advance(chat, to, start) => Advanced(s, chat, to, start)
  }

  // ---- What every state satisfies ----------------------------------------------------------------------

  predicate Ordered(posts: seq<Post>) {
    forall i, k :: 0 <= i < k < |posts| ==> posts[i].id < posts[k].id
  }

  ghost predicate ChannelOk(s: State, chat: int) {
    Ordered(Posts(s, chat)) && forall p :: p in Posts(s, chat) ==> p.seen <= s.now
  }

  /** A published post keeps a live marker for the marker's life. */
  ghost predicate EntryOk(s: State, i: nat)
    requires i < |s.stream|
  {
    var e := s.stream[i];
    && e.at <= s.now && IsPost(s, e.key, e.post)
    && e.key in s.markers && e.at + MARKER_LIFE <= s.markers[e.key]
    && forall k :: i < k < |s.stream| && s.stream[k].key == e.key ==> e.at + MARKER_LIFE <= s.stream[k].at
  }

  /** A marker was set by the entry it guards. */
  ghost predicate MarkerOk(s: State, key: Key)
    requires key in s.markers
  {
    exists i :: 0 <= i < |s.stream| && s.stream[i].key == key && s.markers[key] == s.stream[i].at + MARKER_LIFE
  }

  ghost predicate CheckpointOk(s: State, chat: int) {
    chat in s.checkpoints ==>
      chat in s.floors && Reaches(s, chat, s.checkpoints[chat]) && Covered(s, chat, s.floors[chat], s.checkpoints[chat])
  }

  ghost predicate Inv(s: State) {
    && (forall chat {:trigger ChannelOk(s, chat)} :: ChannelOk(s, chat))
    && (forall i {:trigger EntryOk(s, i)} :: 0 <= i < |s.stream| ==> EntryOk(s, i))
    && (forall key {:trigger MarkerOk(s, key)} :: key in s.markers ==> MarkerOk(s, key))
    && (forall chat {:trigger CheckpointOk(s, chat)} :: CheckpointOk(s, chat))
    && (forall key {:trigger IsPost(s, key, s.pending[key])} :: key in s.pending ==> IsPost(s, key, s.pending[key]))
  }

  /** What any number of steps can do: nothing safe is dropped, nothing moves back. */
  ghost predicate Follows(s: State, s': State) {
    && s.now <= s'.now
    && (forall chat :: Posts(s, chat) <= Posts(s', chat))
    && (forall chat :: chat in s.checkpoints ==> chat in s'.checkpoints && s.checkpoints[chat] <= s'.checkpoints[chat])
    && s.stream <= s'.stream
    && (forall key :: key in s.pending && key !in s'.pending ==> Published(s', key))
  }

  lemma PublishedStays(s: State, s': State, key: Key)
    requires s.stream <= s'.stream && Published(s, key)
    ensures Published(s', key)
  {
  }

  lemma SafeStays(s: State, s': State, key: Key)
    requires Follows(s, s') && Safe(s, key)
    ensures Safe(s', key)
  {
    if Published(s, key) {
      PublishedStays(s, s', key);
    }
  }

  lemma FollowsTrans(s: State, t: State, u: State)
    requires Follows(s, t) && Follows(t, u)
    ensures Follows(s, u)
  {
    forall chat ensures Posts(s, chat) <= Posts(u, chat) {
      assert Posts(s, chat) <= Posts(t, chat) <= Posts(u, chat);
    }
    forall key | key in s.pending && key !in u.pending ensures Published(u, key) {
      if key !in t.pending {
        PublishedStays(t, u, key);
      }
    }
  }

  lemma StepFollows(s: State, a: Action)
    requires Enabled(s, a)
    ensures Follows(s, After(s, a))
  {
  }

  /** Posts that appeared later than a scan's newest post are outside its range. */
  lemma KeepCheckpoint(s: State, a: Action, chat: int)
    requires Inv(s) && Enabled(s, a) && Follows(s, After(s, a))
    ensures CheckpointOk(After(s, a), chat)
  {
    var s' := After(s, a);
    assert CheckpointOk(s, chat) && ChannelOk(s, chat);
    if a.Advance? && a.chat == chat {
      KeepAdvance(s, chat, a.to, a.start);
    } else if chat in s.checkpoints {
      var top :| top in Posts(s, chat) && s.checkpoints[chat] <= top.id;
      assert top in Posts(s', chat);
      forall p | p in Posts(s', chat) && Valid(p) && Above(s.floors[chat], p.id) && p.id <= s.checkpoints[chat]
        ensures Safe(s', Key(chat, p.id))
      {
        if p in Posts(s, chat) {
          SafeStays(s, s', Key(chat, p.id));
        }
      }
    }
  }

  lemma KeepAdvance(s: State, chat: int, to: int, start: Start)
    requires Inv(s) && Reaches(s, chat, to) && StartHolds(s, chat, to, start)
    ensures CheckpointOk(Advanced(s, chat, to, start), chat)
  {
    assert CheckpointOk(s, chat);
  }

  lemma KeepEntry(s: State, a: Action, i: nat)
    requires Inv(s) && Enabled(s, a) && i < |After(s, a).stream|
    ensures EntryOk(After(s, a), i)
  {
    if i < |s.stream| {
      assert EntryOk(s, i);
    }
  }

  lemma KeepMarker(s: State, a: Action, key: Key)
    requires Inv(s) && Enabled(s, a) && key in After(s, a).markers
    ensures MarkerOk(After(s, a), key)
  {
    var s' := After(s, a);
    if key in s.markers && s'.markers[key] == s.markers[key] {
      assert MarkerOk(s, key);
      var i :| 0 <= i < |s.stream| && s.stream[i].key == key && s.markers[key] == s.stream[i].at + MARKER_LIFE;
      assert s'.stream[i] == s.stream[i];
    } else {
      assert s'.stream[|s.stream|] == Entry(key, a.post, s.now);
    }
  }

  lemma StepKeeps(s: State, a: Action)
    requires Inv(s) && Enabled(s, a)
    ensures Inv(After(s, a)) && Follows(s, After(s, a))
  {
    var s' := After(s, a);
    StepFollows(s, a);
    forall i {:trigger EntryOk(s', i)} | 0 <= i < |s'.stream| ensures EntryOk(s', i) {
      KeepEntry(s, a, i);
    }
    forall key {:trigger MarkerOk(s', key)} | key in s'.markers ensures MarkerOk(s', key) {
      KeepMarker(s, a, key);
    }
    forall chat {:trigger CheckpointOk(s', chat)} ensures CheckpointOk(s', chat) {
      KeepCheckpoint(s, a, chat);
    }
    forall chat {:trigger ChannelOk(s', chat)} ensures ChannelOk(s', chat) {
      assert ChannelOk(s, chat);
    }
    forall key {:trigger IsPost(s', key, s'.pending[key])} | key in s'.pending ensures IsPost(s', key, s'.pending[key]) {
      assert key in s.pending ==> IsPost(s, key, s.pending[key]);
    }
  }

  // ---- Runs --------------------------------------------------------------------------------------------

  ghost predicate Initial(s: State) {
    && (forall chat :: ChannelOk(s, chat))
    && s.pending == map[] && s.checkpoints == map[] && s.floors == map[] && s.markers == map[] && s.stream == []
  }

  ghost predicate IsRun(run: seq<State>, acts: seq<Action>) {
    && |run| == |acts| + 1 && Initial(run[0])
    && forall i :: 0 <= i < |acts| ==> Enabled(run[i], acts[i]) && run[i + 1] == After(run[i], acts[i])
  }

  lemma {:induction false} Reachable(run: seq<State>, acts: seq<Action>, i: nat)
    requires IsRun(run, acts) && i < |run|
    ensures Inv(run[i])
  {
    if i > 0 {
      Reachable(run, acts, i - 1);
      StepKeeps(run[i - 1], acts[i - 1]);
      assert run[i] == After(run[i - 1], acts[i - 1]);
    }
  }

  /** Every valid post between the bootstrap point and the checkpoint is in the outbox or has been published. */
  lemma NothingLost(run: seq<State>, acts: seq<Action>, i: nat, chat: int, p: Post)
    requires IsRun(run, acts) && i < |run| && chat in run[i].checkpoints
    requires p in Posts(run[i], chat) && Valid(p) && p.id <= run[i].checkpoints[chat]
    requires chat in run[i].floors ==> Above(run[i].floors[chat], p.id)
    ensures Safe(run[i], Key(chat, p.id))
  {
    Reachable(run, acts, i);
    assert CheckpointOk(run[i], chat);
  }

  lemma {:induction false} RunFollows(run: seq<State>, acts: seq<Action>, i: nat, k: nat)
    requires IsRun(run, acts) && i <= k < |run|
    ensures Follows(run[i], run[k])
    decreases k - i
  {
    if i < k {
      RunFollows(run, acts, i, k - 1);
      Reachable(run, acts, k - 1);
      StepKeeps(run[k - 1], acts[k - 1]);
      assert run[k] == After(run[k - 1], acts[k - 1]);
      FollowsTrans(run[i], run[k - 1], run[k]);
    }
  }

  /** A post once stored stays stored or published for ever, and the checkpoint never moves back. */
  lemma SafeForever(run: seq<State>, acts: seq<Action>, i: nat, k: nat, key: Key)
    requires IsRun(run, acts) && i <= k < |run| && Safe(run[i], key)
    ensures Safe(run[k], key)
    ensures key.chat in run[i].checkpoints ==>
              key.chat in run[k].checkpoints && run[i].checkpoints[key.chat] <= run[k].checkpoints[key.chat]
  {
    RunFollows(run, acts, i, k);
    SafeStays(run[i], run[k], key);
  }

  /** Two source entries of one post are at least a marker's life apart. */
  lemma NothingDoubled(run: seq<State>, acts: seq<Action>, i: nat, a: nat, b: nat)
    requires IsRun(run, acts) && i < |run| && a < b < |run[i].stream| && run[i].stream[a].key == run[i].stream[b].key
    ensures run[i].stream[a].at + MARKER_LIFE <= run[i].stream[b].at
  {
    Reachable(run, acts, i);
    assert EntryOk(run[i], a);
  }

  /** Publishing adds an entry exactly when the post was not published within the marker's life. */
  lemma PublishesIff(run: seq<State>, acts: seq<Action>, i: nat, key: Key, p: Post)
    requires IsRun(run, acts) && i < |run| && IsPost(run[i], key, p)
    ensures PublishedOnce(run[i], key, p).stream == run[i].stream <==>
            exists k :: 0 <= k < |run[i].stream| && run[i].stream[k].key == key && run[i].now < run[i].stream[k].at + MARKER_LIFE
  {
    Reachable(run, acts, i);
    var s := run[i];
    if k: nat :| k < |s.stream| && s.stream[k].key == key && s.now < s.stream[k].at + MARKER_LIFE {
      assert EntryOk(s, k);
    } else {
      assert key in s.markers ==> MarkerOk(s, key);
      assert !Marked(s, key);
    }
  }
}
