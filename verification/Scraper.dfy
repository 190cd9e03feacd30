/** The scraper's three writers. */
module Scraper {
  // Between any two of their steps the other processes may take any number of steps and the process may die; every
  // step they take is one of the atomic actions of `Ingestion`.

  import opened Ingestion
  import opened Options
  import opened Paging

  const REPLAY_BATCH: nat := 100
  const MAX_RETRIES: nat := 3

  function LastId(posts: seq<Post>): int {
    if posts == [] then 0 else posts[|posts| - 1].id
  }

  /** The posts a scan that starts in state `s` is after: those beyond the checkpoint, or the unbroken tail
      of the channel inside the bootstrap window. */
  predicate Wanted(s: Ingestion.State, chat: int, p: Post) {
    if chat in s.checkpoints then s.checkpoints[chat] < p.id
    else forall q :: q in Posts(s, chat) && p.id <= q.id && q.date.Some? ==> s.now - 15 * 60 <= q.date.value
  }

  /** The scan has gone down to index `i` and every valid post above it is safe. */
  ghost predicate Collected(s: Ingestion.State, chat: int, history: seq<Post>, i: nat) {
    && i <= |history| && history <= Posts(s, chat)
    && forall k :: i <= k < |history| && Valid(history[k]) ==> Safe(s, Key(chat, history[k].id))
  }

  /** Everything below index `i` lies at or below where the scan started from. */
  predicate Stops(history: seq<Post>, i: nat, start: Start) {
    0 < i <= |history| ==>
      match start
      case FromCheckpoint(id) => history[i - 1].id <= id
      case FromWindow(stop) => stop == Some(history[i - 1].id)
  }

  lemma CollectedStays(s: Ingestion.State, s': Ingestion.State, chat: int, history: seq<Post>, i: nat)
    requires Collected(s, chat, history, i) && Follows(s, s')
    ensures Collected(s', chat, history, i)
  {
    assert Posts(s, chat) <= Posts(s', chat);
    forall k | i <= k < |history| && Valid(history[k]) ensures Safe(s', Key(chat, history[k].id)) {
      SafeStays(s, s', Key(chat, history[k].id));
    }
  }

  lemma InHistory(s: Ingestion.State, chat: int, history: seq<Post>, p: Post)
    requires Ordered(Posts(s, chat)) && history <= Posts(s, chat) && history != []
    requires p in Posts(s, chat) && p.id <= LastId(history)
    ensures p in history
  {
  }

  /** What has been collected lets the checkpoint move to the scan's newest post. */
  lemma ScanCovers(s: Ingestion.State, chat: int, history: seq<Post>, i: nat, start: Start)
    requires Inv(s) && Collected(s, chat, history, i) && history != [] && Stops(history, i, start)
    requires start.FromCheckpoint? ==> chat in s.checkpoints && start.id <= s.checkpoints[chat]
    ensures Enabled(s, Advance(chat, LastId(history), start))
  {
    assert ChannelOk(s, chat);
    assert history[|history| - 1] in Posts(s, chat);
    assert forall k :: 0 <= k < |history| ==> history[k] == Posts(s, chat)[k];
    var after := if start.FromCheckpoint? then Some(start.id) else start.stop;
    forall p | p in Posts(s, chat) && Valid(p) && Above(after, p.id) && p.id <= LastId(history)
      ensures Safe(s, Key(chat, p.id))
    {
      InHistory(s, chat, history, p);
      var k :| 0 <= k < |history| && history[k] == p;
      assert i <= k;
    }
  }

  /** Where the scan of state `s`'s history stopped. */
  predicate Reached(s: Ingestion.State, chat: int, history: seq<Post>, i: nat) {
    0 < i <= |history| ==>
      if chat in s.checkpoints then history[i - 1].id <= s.checkpoints[chat]
      else history[i - 1].date.Some? && history[i - 1].date.value < s.now - BOOTSTRAP_WINDOW
  }

  lemma Begins(s: Ingestion.State, chat: int)
    ensures Follows(s, s) && Collected(s, chat, Posts(s, chat), |Posts(s, chat)|)
  {
  }

  lemma ScanComplete(s: Ingestion.State, s': Ingestion.State, chat: int, history: seq<Post>, i: nat)
    requires Inv(s) && history == Posts(s, chat) && Reached(s, chat, history, i) && Collected(s', chat, history, i)
    ensures forall p :: p in history && Valid(p) && Wanted(s, chat, p) ==> Safe(s', Key(chat, p.id))
  {
    assert ChannelOk(s, chat);
    assert 0 < i <= |history| ==> history[i - 1] in history;
    forall p | p in history && Valid(p) && Wanted(s, chat, p) ensures Safe(s', Key(chat, p.id)) {
      var k :| 0 <= k < |history| && history[k] == p;
      assert i <= k;
    }
  }

  /** A valid post beyond the bootstrap point that no handler stored lies beyond the checkpoint, so the next
      completed scan is after it. */
  lemma UnstoredStaysWanted(s: Ingestion.State, chat: int, p: Post)
    requires Inv(s) && p in Posts(s, chat) && Valid(p) && !Safe(s, Key(chat, p.id))
    requires chat in s.checkpoints && chat in s.floors && Above(s.floors[chat], p.id)
    ensures Wanted(s, chat, p)
  {
    assert CheckpointOk(s, chat);
  }

  lemma PostStays(s: Ingestion.State, s': Ingestion.State, key: Key, p: Post)
    requires IsPost(s, key, p) && Follows(s, s')
    ensures IsPost(s', key, p)
  {
  }

  /** A reported publish means an entry of the post is in the stream, added now or guarded by its marker. */
  lemma MarkedIsPublished(s: Ingestion.State, key: Key, p: Post)
    requires Inv(s)
    ensures Published(PublishedOnce(s, key, p), key)
  {
    if Marked(s, key) {
      assert MarkerOk(s, key);
    } else {
      assert PublishedOnce(s, key, p).stream[|s.stream|].key == key;
    }
  }

  /** Every row of the batch is safe, and the first `i` rows are published. */
  ghost predicate Replayed(s: Ingestion.State, rows: seq<Key>, i: nat) {
    && (forall k :: 0 <= k < |rows| ==> Safe(s, rows[k]))
    && (forall k :: 0 <= k < |rows| && k < i ==> Published(s, rows[k]))
  }

  lemma RowPost(s: Ingestion.State, key: Key)
    requires Inv(s) && key in s.pending
    ensures IsPost(s, key, s.pending[key])
  {
  }

  lemma RowsStay(s: Ingestion.State, s': Ingestion.State, rows: seq<Key>, i: nat)
    requires Follows(s, s') && Replayed(s, rows, i)
    ensures Replayed(s', rows, i)
  {
    forall k | 0 <= k < |rows| ensures Safe(s', rows[k]) && (k < i ==> Published(s', rows[k])) {
      SafeStays(s, s', rows[k]);
      if k < i {
        PublishedStays(s, s', rows[k]);
      }
    }
  }

  /** ORDER BY chat_id, message_id */
  predicate Before(a: Key, b: Key) {
    a.chat < b.chat || (a.chat == b.chat && a.message < b.message)
  }

  /** The first rows in key order; fewer than `limit` only if there are no more. */
  ghost predicate IsBatch(pending: map<Key, Post>, limit: nat, rows: seq<Key>) {
    && |rows| <= limit
    && (forall i, k :: 0 <= i < k < |rows| ==> Before(rows[i], rows[k]))
    && (forall r :: r in rows ==> r in pending)
    && (forall k :: k in pending && k !in rows ==> |rows| == limit && forall r :: r in rows ==> Before(r, k))
  }

  lemma RowsStored(s: Ingestion.State, limit: nat, rows: seq<Key>)
    requires IsBatch(s.pending, limit, rows)
    ensures Follows(s, s) && Replayed(s, rows, 0) && forall r :: r in rows ==> r in s.pending
  {
  }

  predicate IsLeast(keys: set<Key>, m: Key) {
    m in keys && forall k :: k in keys ==> k == m || Before(m, k)
  }

  lemma {:induction false} LeastRow(keys: set<Key>)
    ensures keys == {} || exists m :: IsLeast(keys, m)
    decreases |keys|
  {
    if x :| x in keys {
      var others := keys - {x};
      LeastRow(others);
      if others == {} {
        assert forall k :: k in keys ==> k == x || k in others;
        assert IsLeast(keys, x);
      } else {
        var m :| IsLeast(others, m);
        LeastOfTwo(keys, x, m);
      }
    } else {
      assert forall x :: x in keys <==> x in {};
    }
  }

  lemma LeastOfTwo(keys: set<Key>, x: Key, m: Key)
    requires x in keys && IsLeast(keys - {x}, m)
    ensures exists k :: IsLeast(keys, k)
  {
    var least := if Before(x, m) then x else m;
    forall k | k in keys ensures k == least || Before(least, k) {
      assert k == x || k in keys - {x};
    }
    assert IsLeast(keys, least);
  }

  /** The rows taken so far come first, in order, and the rest come after them. */
  ghost predicate Taking(keys: set<Key>, rows: seq<Key>, rest: set<Key>) {
    && (forall k :: k in keys <==> k in rows || k in rest)
    && (forall i, k :: 0 <= i < k < |rows| ==> Before(rows[i], rows[k]))
    && (forall i, k :: 0 <= i < |rows| && k in rest ==> Before(rows[i], k))
  }

  lemma TakeNext(keys: set<Key>, rows: seq<Key>, rest: set<Key>, least: Key)
    requires Taking(keys, rows, rest) && IsLeast(rest, least)
    ensures Taking(keys, rows + [least], rest - {least})
  {
    var rows' := rows + [least];
    forall k ensures k in keys <==> k in rows' || k in rest - {least} {
      assert k in rows' <==> k in rows || k == least;
    }
  }

  /** How often it was attempted to publish the post. */
  function Tries(acts: seq<Action>, key: Key, p: Post): nat {
    multiset(acts)[Publish(key, p)]
  }

  lemma NoTries(key: Key, p: Post)
    ensures forall past: seq<Action> :: Tries(past[|past|..], key, p) == 0
  {
  }

  lemma OneMoreTry(acts: seq<Action>, key: Key, p: Post)
    ensures Tries(acts + [Publish(key, p)], key, p) == Tries(acts, key, p) + 1
  {
  }

  lemma PutIsNoTry(acts: seq<Action>, key: Key, p: Post)
    ensures Tries([Put(key, p)] + acts, key, p) == Tries(acts, key, p)
  {
  }

  lemma PutIsSafe(s: Ingestion.State, key: Key, p: Post)
    requires IsPost(s, key, p)
    ensures Safe(After(s, Put(key, p)), key) && IsPost(After(s, Put(key, p)), key, p)
  {
  }

  /** Each row published and then deleted, in order. */
  ghost function Replays(rows: seq<Key>, payloads: map<Key, Post>): seq<Action>
    requires forall key :: key in rows ==> key in payloads
  {
    if rows == [] then []
    else
      var key := rows[|rows| - 1];
      Replays(rows[..|rows| - 1], payloads) + [Publish(key, payloads[key]), Delete(key)]
  }

  lemma NoReplays(payloads: map<Key, Post>)
    ensures Replays([], payloads) == []
  {
  }

  lemma RowsSafe(s: Ingestion.State, rows: seq<Key>, i: nat)
    requires Replayed(s, rows, i)
    ensures forall key :: key in rows ==> Safe(s, key)
    ensures forall k :: 0 <= k < |rows| ==> Safe(s, rows[k])
    ensures i == |rows| ==> forall key :: key in rows ==> Published(s, key)
  {
  }

  lemma RowPublished(s: Ingestion.State, rows: seq<Key>, i: nat)
    requires Replayed(s, rows, i) && i < |rows| && Published(s, rows[i])
    ensures Replayed(s, rows, i + 1)
  {
  }

  lemma ReplaysOneMore(rows: seq<Key>, key: Key, payloads: map<Key, Post>)
    requires key in payloads && forall k :: k in rows ==> k in payloads
    ensures Replays(rows + [key], payloads) == Replays(rows, payloads) + [Publish(key, payloads[key])] + [Delete(key)]
  {
    assert (rows + [key])[..|rows|] == rows;
  }

  // ---- What a scan puts --------------------------------------------------------------------------------------

  /** The scan has gone down to index `i` and has not stopped: the posts passed lie beyond the checkpoint, or inside the
      bootstrap window. */
  predicate Scanned(s: Ingestion.State, chat: int, history: seq<Post>, i: nat) {
    && i <= |history| && history == Posts(s, chat)
    && forall k :: i <= k < |history| ==>
         if chat in s.checkpoints then s.checkpoints[chat] < history[k].id
         else history[k].date.Some? && s.now - BOOTSTRAP_WINDOW <= history[k].date.value
  }

  /** Of the posts passed, those that met the contract when the scan began are among the puts, and a put is of a post
      passed that met it at some moment since. */
  ghost predicate PutsMade(s: Ingestion.State, now: nat, chat: int, history: seq<Post>, i: nat, puts: seq<Action>) {
    && i <= |history|
    && (forall k :: i <= k < |history| && Meets(history[k], s.now) ==> Put(Key(chat, history[k].id), history[k]) in puts)
    && (forall a :: a in puts ==> exists k :: i <= k < |history| && a == Put(Key(chat, history[k].id), history[k]) && Meets(history[k], now))
  }

  /** The scan has put only posts that it was after and that met the contract. */
  ghost predicate AllPuts(s: Ingestion.State, s': Ingestion.State, chat: int, puts: seq<Action>) {
    forall a :: a in puts ==>
      && a.Put? && a.key == Key(chat, a.post.id) && a.post in Posts(s, chat)
      && Wanted(s, chat, a.post) && Meets(a.post, s'.now)
  }

  lemma NoPutsYet(s: Ingestion.State, chat: int, history: seq<Post>)
    requires history == Posts(s, chat)
    ensures PutsMade(s, s.now, chat, history, |history|, []) && Scanned(s, chat, history, |history|)
  {
  }

  lemma PutsStay(s: Ingestion.State, now: nat, later: nat, chat: int, history: seq<Post>, i: nat, puts: seq<Action>)
    requires PutsMade(s, now, chat, history, i, puts) && now <= later
    ensures PutsMade(s, later, chat, history, i, puts)
  {
  }

  lemma PutOrNot(s: Ingestion.State, now: nat, chat: int, history: seq<Post>, i: nat, puts: seq<Action>, put: bool)
    requires i < |history| && PutsMade(s, now, chat, history, i + 1, puts) && s.now <= now && (put <==> Meets(history[i], now))
    ensures PutsMade(s, now, chat, history, i, if put then puts + [Put(Key(chat, history[i].id), history[i])] else puts)
  {
    var puts' := if put then puts + [Put(Key(chat, history[i].id), history[i])] else puts;
    assert Meets(history[i], s.now) ==> put;
    forall a | a in puts'
      ensures exists k :: i <= k < |history| && a == Put(Key(chat, history[k].id), history[k]) && Meets(history[k], now)
    {
      if a in puts {
        var k :| i + 1 <= k < |history| && a == Put(Key(chat, history[k].id), history[k]) && Meets(history[k], now);
      }
    }
  }

  lemma ScannedWanted(s: Ingestion.State, chat: int, history: seq<Post>, i: nat, k: nat)
    requires Inv(s) && Scanned(s, chat, history, i) && i <= k < |history|
    ensures Wanted(s, chat, history[k])
  {
    assert ChannelOk(s, chat);
    if chat !in s.checkpoints {
      forall q | q in Posts(s, chat) && history[k].id <= q.id && q.date.Some?
        ensures s.now - BOOTSTRAP_WINDOW <= q.date.value
      {
        var m :| 0 <= m < |history| && history[m] == q;
        assert k <= m;
      }
    }
  }

  lemma PutsWanted(s: Ingestion.State, s': Ingestion.State, chat: int, history: seq<Post>, i: nat, puts: seq<Action>)
    requires Inv(s) && Scanned(s, chat, history, i) && PutsMade(s, s'.now, chat, history, i, puts)
    ensures AllPuts(s, s', chat, puts)
  {
    forall a | a in puts
      ensures a.Put? && a.key == Key(chat, a.post.id) && a.post in Posts(s, chat) && Wanted(s, chat, a.post) && Meets(a.post, s'.now)
    {
      var k :| i <= k < |history| && a == Put(Key(chat, history[k].id), history[k]) && Meets(history[k], s'.now);
      ScannedWanted(s, chat, history, i, k);
    }
  }

  lemma PutsStayMade(s: Ingestion.State, s1: Ingestion.State, s2: Ingestion.State, chat: int, puts: seq<Action>)
    requires AllPuts(s, s1, chat, puts) && s1.now <= s2.now
    ensures AllPuts(s, s2, chat, puts)
  {
  }

  lemma AllWantedPut(s: Ingestion.State, now: nat, chat: int, history: seq<Post>, i: nat, puts: seq<Action>)
    requires Inv(s) && history == Posts(s, chat) && Reached(s, chat, history, i) && PutsMade(s, now, chat, history, i, puts)
    ensures forall p :: p in history && Meets(p, s.now) && Wanted(s, chat, p) ==> Put(Key(chat, p.id), p) in puts
  {
    assert ChannelOk(s, chat);
    assert 0 < i <= |history| ==> history[i - 1] in history;
    forall p | p in history && Meets(p, s.now) && Wanted(s, chat, p) ensures Put(Key(chat, p.id), p) in puts {
      var k :| 0 <= k < |history| && history[k] == p;
      assert i <= k;
    }
  }

  class Scraper {
    var now: nat
    var channels: map<int, seq<Post>>
    var pending: map<Key, Post>
    var checkpoints: map<int, int>
    var floors: map<int, Option<int>>
    var markers: map<Key, nat>
    var stream: seq<Entry>
    /** How many more times this process comes back from a wait before it dies: any number. */
    var lives: nat
    /** The steps that this process has attempted, in order. */
    ghost var did: seq<Action>

    constructor (s: Ingestion.State, lives: nat)
      ensures State() == s && this.lives == lives && did == []
    {
      this.lives, did := lives, [];
      now, channels, pending, checkpoints, floors := s.now, s.channels, s.pending, s.checkpoints, s.floors;
      markers, stream := s.markers, s.stream;
    }

    function State(): Ingestion.State
      reads this
    {
      Ingestion.State(now, channels, pending, checkpoints, floors, markers, stream)
    }

    method Become(s: Ingestion.State)
      modifies this
      ensures State() == s && lives == old(lives) && did == old(did)
    {
      now, channels, pending, checkpoints, floors := s.now, s.channels, s.pending, s.checkpoints, s.floors;
      markers, stream := s.markers, s.stream;
    }

    /** Any steps of the other processes, in any order; then this process goes on or dies. */
    method Interleave() returns (alive: bool)
      requires Inv(State())
      modifies this
      ensures Inv(State()) && Follows(old(State()), State())
      ensures did == old(did) && (if alive then lives == old(lives) - 1 else lives == old(lives) == 0) && old(now) <= now
    {
      ghost var s0 := State();
      var acts: seq<Action> := *;
      for i := 0 to |acts|
        invariant Inv(State()) && Follows(s0, State()) && lives == old(lives) && did == old(did)
      {
        if Enabled(State(), acts[i]) {
          ghost var s := State();
          StepKeeps(s, acts[i]);
          Become(After(State(), acts[i]));
          FollowsTrans(s0, s, State());
        }
      }
      alive := lives > 0;
      if alive {
        lives := lives - 1;
      }
    }

    /** ScraperOutbox.put */
    method PutPost(key: Key, p: Post)
      modifies this`pending, this`did
      ensures State() == After(old(State()), Put(key, p)) && did == old(did) + [Put(key, p)]
      ensures pending == if key in old(pending) then old(pending) else old(pending)[key := p]
    {
      did := did + [Put(key, p)];
      if key !in pending {
        pending := pending[key := p];
      }
    }

    /** ScraperOutbox.delete */
    method DeletePost(key: Key)
      modifies this`pending, this`did
      ensures State() == After(old(State()), Delete(key)) && did == old(did) + [Delete(key)]
      ensures pending == old(pending) - {key}
    {
      did := did + [Delete(key)];
      pending := pending - {key};
    }

    /** ScraperOutbox.advance_checkpoint */
    method AdvanceCheckpoint(chat: int, to: int, start: Start)
      modifies this`checkpoints, this`floors, this`did
      ensures State() == After(old(State()), Advance(chat, to, start)) && did == old(did) + [Advance(chat, to, start)]
      ensures checkpoints == old(checkpoints)[chat := if chat in old(checkpoints) && to < old(checkpoints)[chat]
                                                      then old(checkpoints)[chat] else to]
    {
      did := did + [Advance(chat, to, start)];
      if chat !in checkpoints || checkpoints[chat] <= to {
        checkpoints := checkpoints[chat := to];
      }
      var floor := if chat in floors then floors[chat] else None;
      floors := floors[chat := if start.FromWindow? then Higher(floor, start.stop) else floor];
    }

    /** publish_message: the call may fail before the script runs, or after it with the answer lost. */
    method PublishMessage(key: Key, p: Post, reached: bool, answered: bool) returns (reported: bool)
      modifies this`markers, this`stream, this`did
      ensures State() == (if reached then After(old(State()), Publish(key, p)) else old(State()))
      ensures reported == (reached && answered) && did == old(did) + [Publish(key, p)]
      ensures reached && !(key in old(markers) && now < old(markers)[key]) ==>
                stream == old(stream) + [Entry(key, p, now)] && markers == old(markers)[key := now + 30 * 24 * 3600]
      ensures !reached || (key in old(markers) && now < old(markers)[key]) ==> stream == old(stream) && markers == old(markers)
    {
      did := did + [Publish(key, p)];
      if !reached { return false; }
      if !(key in markers && now < markers[key]) {
        stream := stream + [Entry(key, p, now)];
        markers := markers[key := now + MARKER_LIFE];
      }
      reported := answered;
    }

    /** Others run between two steps of a scan. */
    method Resume(ghost s0: Ingestion.State, chat: int, ghost history: seq<Post>, i: nat) returns (alive: bool)
      requires Inv(State()) && Follows(s0, State()) && Collected(State(), chat, history, i)
      modifies this
      ensures Inv(State()) && Follows(s0, State()) && Collected(State(), chat, history, i)
      ensures did == old(did) && (alive || lives == 0) && old(now) <= now
    {
      ghost var s := State();
      alive := Interleave();
      CollectedStays(s, State(), chat, history, i);
      FollowsTrans(s0, s, State());
    }

    /** A scan puts the post at index `i` into the outbox if it meets the message contract. */
    method Capture(ghost s0: Ingestion.State, chat: int, ghost history: seq<Post>, i: nat, p: Post) returns (put: bool)
      requires Inv(State()) && Follows(s0, State()) && Collected(State(), chat, history, i + 1)
      requires i < |history| && history[i] == p
      modifies this`pending, this`did
      ensures Inv(State()) && Follows(s0, State()) && Collected(State(), chat, history, i)
      ensures put <==> Meets(p, now)
      ensures did == if put then old(did) + [Put(Key(chat, p.id), p)] else old(did)
    {
      AcceptsIff(p, now);
      ghost var s := State();
      var key := Key(chat, p.id);
      assert p == Posts(s, chat)[i] && ChannelOk(s, chat);
      put := Accepts(p, now);
      if put {
        StepKeeps(s, Put(key, p));
        PutPost(key, p);
        CollectedStays(s, State(), chat, history, i + 1);
        FollowsTrans(s0, s, State());
        assert Safe(State(), key);
      }
    }

    /** The checkpoint moves to the newest post of a scan that went down to where it may stop. */
    method Finish(ghost s0: Ingestion.State, chat: int, history: seq<Post>, i: nat, start: Start) returns (alive: bool)
      requires Inv(State()) && Follows(s0, State()) && Collected(State(), chat, history, i)
      requires history != [] && Stops(history, i, start)
      requires start.FromCheckpoint? ==> chat in s0.checkpoints && start.id == s0.checkpoints[chat]
      modifies this
      ensures Inv(State()) && Follows(s0, State()) && Collected(State(), chat, history, i)
      ensures alive ==> chat in checkpoints && LastId(history) <= checkpoints[chat]
      ensures if alive then did == old(did) + [Advance(chat, LastId(history), start)] else did == old(did) && lives == 0
      ensures old(now) <= now
    {
      alive := Resume(s0, chat, history, i);
      if alive {
        ghost var s := State();
        ScanCovers(s, chat, history, i, start);
        StepKeeps(s, Advance(chat, LastId(history), start));
        AdvanceCheckpoint(chat, LastId(history), start);
        CollectedStays(s, State(), chat, history, i);
        FollowsTrans(s0, s, State());
      }
    }

    /** catch_up_channel: newest first down to the checkpoint, or to the bootstrap window on first deployment.
        None: the scan met a post without a date or the process died, and the checkpoint was left alone. */
    method CatchUp(chat: int) returns (recovered: Option<nat>, ghost puts: seq<Action>)
      requires Inv(State())
      modifies this
      ensures Inv(State()) && Follows(old(State()), State())
      ensures recovered.Some? && Posts(old(State()), chat) != [] ==>
                chat in checkpoints && LastId(Posts(old(State()), chat)) <= checkpoints[chat]
      ensures recovered.Some? ==> forall p :: p in Posts(old(State()), chat) && Valid(p) && Wanted(old(State()), chat, p) ==>
                Safe(State(), Key(chat, p.id))
      ensures AllPuts(old(State()), State(), chat, puts) && (recovered.Some? ==> recovered.value == |puts|)
      ensures recovered.Some? ==> forall p :: p in Posts(old(State()), chat) && Meets(p, old(now)) && Wanted(old(State()), chat, p) ==>
                Put(Key(chat, p.id), p) in puts
      ensures if recovered.Some? && Posts(old(State()), chat) != []
              then exists start :: did == old(did) + puts + [Advance(chat, LastId(Posts(old(State()), chat)), start)]
              else did == old(did) + puts
      ensures recovered.None? ==> lives == 0 || exists p :: p in Posts(old(State()), chat) && p.date.None?
    {
      hide Inv, Follows, Collected, Accepts, Meets, AllPuts, PutsMade, Wanted;
      ghost var s0 := State();
      var checkpoint := if chat in checkpoints then Some(checkpoints[chat]) else None;
      var cutoff := now - BOOTSTRAP_WINDOW;
      var history := Posts(State(), chat);
      Begins(s0, chat);
      puts := [];
      NoPutsYet(s0, chat, history);
      var highest: Option<int> := None;
      var stop: Option<int> := None;
      var count := 0;
      var i: nat := |history|;
      while i > 0
        invariant i <= |history| && Inv(State()) && Follows(s0, State()) && Collected(State(), chat, history, i)
        invariant highest == if i == |history| then None else Some(LastId(history))
        invariant Scanned(s0, chat, history, i) && s0.now <= now
        invariant did == old(did) + puts && count == |puts| && PutsMade(s0, now, chat, history, i, puts)
      {
        ghost var before := now;
        var alive := Resume(s0, chat, history, i);
        PutsStay(s0, before, now, chat, history, i, puts);
        if !alive {
          PutsWanted(s0, State(), chat, history, i, puts);
          return None, puts;
        }
        var message := history[i - 1];
        if highest.None? {
          highest := Some(message.id);
        }
        if checkpoint.Some? && message.id <= checkpoint.value {
          stop := Some(message.id);
          break;
        }
        if message.date.None? {
          PutsWanted(s0, State(), chat, history, i, puts);
          return None, puts;
        }
        if checkpoint.None? && message.date.value < cutoff {
          stop := Some(message.id);
          break;
        }
        i := i - 1;
        var put := Capture(s0, chat, history, i, message);
        PutOrNot(s0, now, chat, history, i, puts, put);
        if put {
          count := count + 1;
          puts := puts + [Put(Key(chat, message.id), message)];
        }
      }
      assert Reached(s0, chat, history, i);
      PutsWanted(s0, State(), chat, history, i, puts);
      ghost var s1 := State();
      if highest.Some? {
        var alive := Finish(s0, chat, history, i, if checkpoint.Some? then FromCheckpoint(checkpoint.value) else FromWindow(stop));
        PutsStayMade(s0, s1, State(), chat, puts);
        if !alive { return None, puts; }
      }
      ScanComplete(s0, State(), chat, history, i);
      AllWantedPut(s0, s1.now, chat, history, i, puts);
      recovered := Some(count);
    }

    /** One publish attempt followed by the delete it entitles to. Either may fail; the post stays safe. */
    method PublishAndDelete(key: Key, p: Post) returns (done: bool)
      requires Inv(State()) && IsPost(State(), key, p) && Safe(State(), key)
      modifies this
      ensures Inv(State()) && Follows(old(State()), State()) && Safe(State(), key)
      ensures done ==> Published(State(), key)
      ensures did == old(did) + [Publish(key, p)] + if done then [Delete(key)] else []
      ensures old(now) <= now
    {
      ghost var s0 := State();
      StepKeeps(s0, Publish(key, p));
      var reached: bool, answered: bool := *, *;
      var reported := PublishMessage(key, p, reached, answered);
      ghost var s1 := State();
      if !reported {
        SafeStays(s0, s1, key);
        return false;
      }
      MarkedIsPublished(s0, key, p);
      var alive := Interleave();
      ghost var s2 := State();
      FollowsTrans(s0, s1, s2);
      PublishedStays(s1, s2, key);
      var deleted: bool := *;
      if alive && deleted {
        StepKeeps(s2, Delete(key));
        DeletePost(key);
        FollowsTrans(s0, s2, State());
        return true;
      }
      return false;
    }

    /** handle_channel_post: a confirmed local commit, then up to three attempts to publish and delete. The process
        may die before the commit, and the commit may fail (`putFails`). `clock` is the time at which the post was
        checked. */
    method HandleChannelPost(chat: int, p: Post, putFails: bool) returns (committed: bool, published: bool, ghost clock: nat)
      requires Inv(State()) && IsPost(State(), Key(chat, p.id), p)
      modifies this
      ensures Inv(State()) && Follows(old(State()), State()) && old(now) <= clock <= now
      ensures committed ==> Safe(State(), Key(chat, p.id))
      ensures published ==> committed && Published(State(), Key(chat, p.id))
      ensures committed <==> old(lives) > 0 && Meets(p, clock) && !putFails
      ensures !Meets(p, clock) ==> did == old(did)
      ensures committed ==> |did| > |old(did)| && did[..|old(did)| + 1] == old(did) + [Put(Key(chat, p.id), p)]
      ensures committed && !published ==> lives == 0 || Tries(did[|old(did)|..], Key(chat, p.id), p) == 3
    {
      hide Inv, Follows, Safe, Published, Accepts, Meets, Tries, IsPost;
      ghost var s0 := State();
      var key := Key(chat, p.id);
      committed, published := false, false;
      var alive := Interleave();
      PostStays(s0, State(), key, p);
      clock := now;
      AcceptsIff(p, now);
      if !alive || !Accepts(p, now) { return; }
      ghost var s1 := State();
      StepKeeps(s1, Put(key, p));
      var reached: bool := *;
      if !putFails || reached {
        PutPost(key, p);
        committed := !putFails;
      }
      FollowsTrans(s0, s1, State());
      if !committed { return; }
      PutIsSafe(s1, key, p);
      ghost var past := did;
      published := PublishStored(s0, key, p);
      assert did[|old(did)|..] == [Put(key, p)] + did[|past|..];
      PutIsNoTry(did[|past|..], key, p);
    }

    /** The attempts that follow the commit. */
    method PublishStored(ghost s0: Ingestion.State, key: Key, p: Post) returns (published: bool)
      requires Inv(State()) && Follows(s0, State()) && Safe(State(), key) && IsPost(State(), key, p)
      modifies this
      ensures Inv(State()) && Follows(s0, State()) && Safe(State(), key) && old(now) <= now
      ensures published ==> Published(State(), key)
      ensures old(did) <= did
      ensures !published ==> lives == 0 || Tries(did[|old(did)|..], key, p) == MAX_RETRIES
    {
      hide Inv, Follows, Safe, Published, Tries, IsPost;
      NoTries(key, p);
      for attempt := 0 to MAX_RETRIES
        invariant Inv(State()) && Follows(s0, State()) && Safe(State(), key) && IsPost(State(), key, p) && old(now) <= now
        invariant old(did) <= did && Tries(did[|old(did)|..], key, p) == attempt
      {
        ghost var s1 := State();
        var alive := Interleave();
        ghost var s2 := State();
        FollowsTrans(s0, s1, s2);
        SafeStays(s1, s2, key);
        if !alive { return false; }
        PostStays(s1, s2, key, p);
        ghost var past := did;
        var done := PublishAndDelete(key, p);
        PostStays(s2, State(), key, p);
        FollowsTrans(s0, s2, State());
        if done { return true; }
        assert did[|old(did)|..] == past[|old(did)|..] + [Publish(key, p)];
        OneMoreTry(past[|old(did)|..], key, p);
      }
      return false;
    }

    /** SELECT the first `limit` rows in key order. */
    method PendingRows(limit: nat) returns (rows: seq<Key>)
      ensures IsBatch(pending, limit, rows)
    {
      rows := [];
      var rest := pending.Keys;
      while rest != {} && |rows| < limit
        invariant |rows| <= limit && Taking(pending.Keys, rows, rest)
        decreases |rest|
      {
        hide Taking;
        LeastRow(rest);
        var least :| IsLeast(rest, least);
        TakeNext(pending.Keys, rows, rest, least);
        rows := rows + [least];
        rest := rest - {least};
      }
    }

    /** replay_outbox, one batch: every row is published before it is deleted; a failure ends the batch. `n` rows were
        published and deleted. */
    method ReplayOutbox() returns (batch: seq<Key>, completed: bool, ghost n: nat)
      requires Inv(State())
      modifies this
      ensures Inv(State()) && Follows(old(State()), State())
      ensures IsBatch(old(pending), 100, batch)
      ensures forall key :: key in batch ==> key in old(pending) && Safe(State(), key)
      ensures completed ==> forall key :: key in batch ==> Published(State(), key)
      ensures if completed then n == |batch| && did == old(did) + Replays(batch, old(pending))
              else
                && n < |batch|
                && ((did == old(did) + Replays(batch[..n], old(pending)) && lives == 0) ||
                    did == old(did) + Replays(batch[..n], old(pending)) + [Publish(batch[n], old(pending)[batch[n]])])
    {
      hide Inv, Follows, IsBatch, Replayed, IsPost, Replays, Published, Safe;
      ghost var s0 := State();
      var rows := PendingRows(REPLAY_BATCH);
      batch, n := rows, 0;
      var payloads := pending;
      RowsStored(s0, REPLAY_BATCH, rows);
      NoReplays(payloads);
      assert rows[..0] == [];
      for i := 0 to |rows|
        invariant Inv(State()) && Follows(s0, State()) && Replayed(State(), rows, i)
        invariant n == i && did == old(did) + Replays(rows[..i], payloads)
      {
        ghost var s1 := State();
        var alive := Interleave();
        RowsStay(s1, State(), rows, i);
        FollowsTrans(s0, s1, State());
        RowsSafe(State(), rows, i);
        if !alive { return batch, false, n; }
        var key := rows[i];
        RowPost(s0, key);
        PostStays(s0, State(), key, payloads[key]);
        ghost var s2 := State();
        var done := PublishAndDelete(key, payloads[key]);
        RowsStay(s2, State(), rows, i);
        FollowsTrans(s0, s2, State());
        RowsSafe(State(), rows, i);
        if !done { return batch, false, n; }
        RowPublished(State(), rows, i);
        n := n + 1;
        assert rows[..i + 1] == rows[..i] + [key];
        ReplaysOneMore(rows[..i], key, payloads);
      }
      assert rows[..|rows|] == rows;
      RowsSafe(State(), rows, |rows|);
      completed := true;
    }
  }
}
