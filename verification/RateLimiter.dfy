/** The shared Telegram rate reservations. */
module RateLimiter {
  // Three slot keys with a life, granted and paused by atomic scripts. Times are in milliseconds on the Redis clock.

  import opened Options

  const GLOBAL_GAP: nat := 50
  const CHAT_GAP: nat := 1000
  const REPEAT_GAP: nat := 200
  const SLOT_LIFE: nat := 2000
  const LEAST_PAUSE: nat := 1000

  /** A key: the instant before which nothing is granted, and the instant at which the key expires. */
  datatype Slot = Slot(at: nat, expires: nat)

  datatype Keys = Keys(now: nat, global: Option<Slot>, chats: map<int, Slot>, repeats: Option<Slot>)

  /** `era` counts how often the chat's key had been deleted before. */
  datatype Grant = Grant(at: nat, chat: int, again: bool, era: nat)

  /** What was granted, until when it was paused, and how often each chat's key was deleted. */
  datatype History = History(grants: seq<Grant>, pauses: seq<nat>, drops: map<int, nat>)

  datatype State = State(keys: Keys, h: History)

  /** `DropChat` is what the deletion of a recipient's data does to the recipient's key. */
  datatype Action = Tick(ms: nat) | Acquire(chat: int, again: bool) | Pause(seconds: int) | DropChat(chat: int)

  function Max(a: int, b: int): int {
    if a < b then b else a
  }

  /** GET or '0' */
  function Get(slot: Option<Slot>, now: nat): nat {
    if slot.Some? && now < slot.value.expires then slot.value.at else 0
  }

  function ChatSlot(k: Keys, chat: int): Option<Slot> {
    if chat in k.chats then Some(k.chats[chat]) else None
  }

  function Wait(k: Keys, chat: int, again: bool): nat {
    Max(0, Max(Get(k.global, k.now) - k.now,
      Max(Get(ChatSlot(k, chat), k.now) - k.now, if again then Get(k.repeats, k.now) - k.now else 0)))
  }

  function Granted(k: Keys, chat: int, again: bool): Keys {
    k.(global := Some(Slot(k.now + GLOBAL_GAP, k.now + SLOT_LIFE)),
       chats := k.chats[chat := Slot(k.now + CHAT_GAP, k.now + SLOT_LIFE)],
       repeats := if again then Some(Slot(k.now + REPEAT_GAP, k.now + SLOT_LIFE)) else k.repeats)
  }

  function PauseLength(seconds: int): nat {
    if seconds * 1000 < LEAST_PAUSE then LEAST_PAUSE else seconds * 1000
  }

  function Paused(k: Keys, length: nat): Keys {
    k.(global := if Get(k.global, k.now) < k.now + length then Some(Slot(k.now + length, k.now + length + SLOT_LIFE))
                 else k.global)
  }

  class TelegramRateLimiter {
    var now: nat
    var global: Option<Slot>
    var chats: map<int, Slot>
    var repeats: Option<Slot>

    function Slots(): Keys
      reads this
    {
      Keys(now, global, chats, repeats)
    }

    constructor ()
      ensures Slots() == Keys(0, None, map[], None)
    {
      now, global, chats, repeats := 0, None, map[], None;
    }

    /** ACQUIRE_SLOT_LUA */
    method AcquireSlot(chat: int, again: bool) returns (wait: nat)
      modifies this
      ensures wait == Wait(old(Slots()), chat, again)
      ensures Slots() == if wait == 0 then Granted(old(Slots()), chat, again) else old(Slots())
    {
      var globalAt := Get(global, now);
      var chatAt := if chat in chats then Get(Some(chats[chat]), now) else 0;
      var repeatAt := 0;
      if again {
        repeatAt := Get(repeats, now);
      }
      wait := Max(Max(0, globalAt - now), Max(chatAt - now, repeatAt - now));
      if wait > 0 { return; }
      global := Some(Slot(now + GLOBAL_GAP, now + SLOT_LIFE));
      chats := chats[chat := Slot(now + CHAT_GAP, now + SLOT_LIFE)];
      if again {
        repeats := Some(Slot(now + REPEAT_GAP, now + SLOT_LIFE));
      }
    }

    /** What the deletion of a recipient's data does here. */
    method DropChat(chat: int)
      modifies this`chats
      ensures Slots() == old(Slots()).(chats := old(chats) - {chat})
    {
      chats := chats - {chat};
    }

    /** PAUSE_GLOBAL_LUA, called with at least a second. */
    method PauseGlobal(seconds: int)
      modifies this
      ensures Slots() == Paused(old(Slots()), PauseLength(seconds))
      ensures now == old(now) && chats == old(chats) && repeats == old(repeats)
      ensures var length := if seconds < 1 then 1000 else 1000 * seconds;
        if old(Get(global, now)) < now + length then global == Some(Slot(now + length, now + length + 2000))
        else global == old(global)
    {
      var length: nat := if LEAST_PAUSE < seconds * 1000 then seconds * 1000 else LEAST_PAUSE;
      var until := now + length;
      if until > Get(global, now) {
        global := Some(Slot(until, until + SLOT_LIFE));
      }
    }
  }

  function Era(h: History, chat: int): nat {
    if chat in h.drops then h.drops[chat] else 0
  }

  function After(s: State, a: Action): State {
    match a
    case Tick(ms) => s.(keys := s.keys.(now := s.keys.now + ms))
    case Acquire(chat, again) =>
      if Wait(s.keys, chat, again) > 0 then s
      else State(Granted(s.keys, chat, again), s.h.(grants := s.h.grants + [Grant(s.keys.now, chat, again, Era(s.h, chat))]))
    case Pause(seconds) =>
      State(Paused(s.keys, PauseLength(seconds)), s.h.(pauses := s.h.pauses + [s.keys.now + PauseLength(seconds)]))
    case DropChat(chat) =>
      State(s.keys.(chats := s.keys.chats - {chat}), s.h.(drops := s.h.drops[chat := Era(s.h, chat) + 1]))
  }

  predicate Initial(s: State) {
    s.keys.global == None && s.keys.chats == map[] && s.keys.repeats == None && s.h == History([], [], map[])
  }

  ghost predicate IsRun(run: seq<State>, acts: seq<Action>) {
    && |run| == |acts| + 1 && Initial(run[0])
    && forall i :: 0 <= i < |acts| ==> run[i + 1] == After(run[i], acts[i])
  }

  // ---- The ideal limiter, which forgets only what a deletion erases -----------------------------------

  /** A grant to `chat` at time `t` respects every earlier pause and grant; within the chat, every grant since its
      key was last deleted. */
  ghost predicate Free(h: History, chat: int, again: bool, t: nat) {
    && (forall g :: g in h.grants ==> Respects(g, chat, again, Era(h, chat), t))
    && (forall u :: u in h.pauses ==> u <= t)
  }

  predicate Respects(g: Grant, chat: int, again: bool, era: nat, t: nat) {
    && g.at + GLOBAL_GAP <= t
    && (g.chat == chat && g.era == era ==> g.at + CHAT_GAP <= t)
    && (g.again && again ==> g.at + REPEAT_GAP <= t)
  }

  // ---- What every state satisfies ----------------------------------------------------------------------

  function Value(slot: Option<Slot>): nat {
    if slot.Some? then slot.value.at else 0
  }

  /** A key never expires while it still holds something back. */
  predicate LivesLongEnough(slot: Option<Slot>) {
    slot.Some? ==> slot.value.at <= slot.value.expires
  }

  /** A slot value is the latest instant that its grants and pauses demand. */
  ghost predicate GlobalOk(s: State) {
    var v := Value(s.keys.global);
    && LivesLongEnough(s.keys.global)
    && (forall g :: g in s.h.grants ==> g.at + GLOBAL_GAP <= v)
    && (forall u :: u in s.h.pauses ==> u <= v)
    && (v == 0 || v in s.h.pauses || exists g :: g in s.h.grants && v == g.at + GLOBAL_GAP)
  }

  ghost predicate ChatOk(s: State, chat: int) {
    var v := Value(ChatSlot(s.keys, chat));
    && LivesLongEnough(ChatSlot(s.keys, chat))
    && (forall g :: g in s.h.grants && g.chat == chat ==>
          g.era <= Era(s.h, chat) && (g.era == Era(s.h, chat) ==> g.at + CHAT_GAP <= v))
    && (v == 0 || exists g :: g in s.h.grants && g.chat == chat && g.era == Era(s.h, chat) && v == g.at + CHAT_GAP)
  }

  ghost predicate RepeatOk(s: State) {
    var v := Value(s.keys.repeats);
    && LivesLongEnough(s.keys.repeats)
    && (forall g :: g in s.h.grants && g.again ==> g.at + REPEAT_GAP <= v)
    && (v == 0 || exists g :: g in s.h.grants && g.again && v == g.at + REPEAT_GAP)
  }

  ghost predicate Spaced(grants: seq<Grant>) {
    forall i, k :: 0 <= i < k < |grants| ==> Respects(grants[i], grants[k].chat, grants[k].again, grants[k].era, grants[k].at)
  }

  ghost predicate Inv(s: State) {
    GlobalOk(s) && RepeatOk(s) && (forall chat :: ChatOk(s, chat)) && Spaced(s.h.grants)
  }

  /** Expired or not, a key delays exactly as if it were kept for ever. */
  lemma ExpiryIsHarmless(slot: Option<Slot>, now: nat)
    requires LivesLongEnough(slot)
    ensures Max(0, Get(slot, now) - now) == Max(0, Value(slot) - now)
  {
  }

  /** What a grant does: one more grant, and every slot value up to now is replaced by a later one. */
  lemma GrantFacts(s: State, chat: int, again: bool)
    requires Inv(s) && Wait(s.keys, chat, again) == 0
    ensures Value(s.keys.global) <= s.keys.now && Value(ChatSlot(s.keys, chat)) <= s.keys.now
    ensures again ==> Value(s.keys.repeats) <= s.keys.now
    ensures var g := Grant(s.keys.now, chat, again, Era(s.h, chat)); var s' := After(s, Acquire(chat, again));
      g in s'.h.grants && forall q :: q in s'.h.grants <==> q in s.h.grants || q == g
  {
    assert ChatOk(s, chat);
  }

  lemma GrantKeepsSlots(s: State, chat: int, again: bool)
    requires Inv(s) && Wait(s.keys, chat, again) == 0
    ensures GlobalOk(After(s, Acquire(chat, again))) && RepeatOk(After(s, Acquire(chat, again)))
  {
    GrantFacts(s, chat, again);
  }

  lemma GrantKeepsChat(s: State, chat: int, again: bool, c: int)
    requires Inv(s) && Wait(s.keys, chat, again) == 0
    ensures ChatOk(After(s, Acquire(chat, again)), c)
  {
    GrantFacts(s, chat, again);
    assert ChatOk(s, c);
  }

  lemma GrantKeepsSpacing(s: State, chat: int, again: bool)
    requires Inv(s) && Wait(s.keys, chat, again) == 0
    ensures Spaced(After(s, Acquire(chat, again)).h.grants)
  {
    GrantFacts(s, chat, again);
    assert ChatOk(s, chat);
    var grants := After(s, Acquire(chat, again)).h.grants;
    forall i, k | 0 <= i < k < |grants|
      ensures Respects(grants[i], grants[k].chat, grants[k].again, grants[k].era, grants[k].at)
    {
      assert grants[i] == s.h.grants[i] && s.h.grants[i] in s.h.grants;
    }
  }

  lemma KeepAcquire(s: State, chat: int, again: bool)
    requires Inv(s)
    ensures Inv(After(s, Acquire(chat, again)))
  {
    if Wait(s.keys, chat, again) == 0 {
      GrantKeepsSlots(s, chat, again);
      GrantKeepsSpacing(s, chat, again);
      hide GlobalOk, RepeatOk, ChatOk, Spaced, After;
      forall c ensures ChatOk(After(s, Acquire(chat, again)), c) {
        GrantKeepsChat(s, chat, again, c);
      }
    }
  }

  lemma KeepPause(s: State, seconds: int)
    requires Inv(s)
    ensures Inv(After(s, Pause(seconds)))
  {
    var s' := After(s, Pause(seconds));
    var u := s.keys.now + PauseLength(seconds);
    assert forall q :: q in s'.h.pauses <==> q in s.h.pauses || q == u;
    forall c ensures ChatOk(s', c) {
      assert ChatOk(s, c);
    }
  }

  lemma KeepDrop(s: State, chat: int)
    requires Inv(s)
    ensures Inv(After(s, DropChat(chat)))
  {
    forall c ensures ChatOk(After(s, DropChat(chat)), c) {
      assert ChatOk(s, c);
    }
  }

  lemma {:induction false} Reachable(run: seq<State>, acts: seq<Action>, i: nat)
    requires IsRun(run, acts) && i < |run|
    ensures Inv(run[i])
  {
    if i > 0 {
      Reachable(run, acts, i - 1);
      var s := run[i - 1];
      assert run[i] == After(s, acts[i - 1]);
      match acts[i - 1]
      case Tick(_) =>
        forall c ensures ChatOk(run[i], c) {
          assert ChatOk(s, c);
        }
      case Acquire(chat, again) => KeepAcquire(s, chat, again);
      case Pause(seconds) => KeepPause(s, seconds);
      case DropChat(chat) => KeepDrop(s, chat);
    }
  }

  // ---- The guarantees --------------------------------------------------------------------------------------

  /** The wait answered is exact: nothing earlier is free, and that instant is. So a slot is granted if and only
      if the limiter that forgets only by deletion would grant it. */
  lemma WaitIsExact(run: seq<State>, acts: seq<Action>, i: nat, chat: int, again: bool)
    requires IsRun(run, acts) && i < |run|
    ensures var s := run[i]; var w := Wait(s.keys, chat, again);
      Free(s.h, chat, again, s.keys.now + w) && forall t :: s.keys.now <= t < s.keys.now + w ==> !Free(s.h, chat, again, t)
  {
    Reachable(run, acts, i);
    var s := run[i];
    assert ChatOk(s, chat);
    ExpiryIsHarmless(s.keys.global, s.keys.now);
    ExpiryIsHarmless(ChatSlot(s.keys, chat), s.keys.now);
    ExpiryIsHarmless(s.keys.repeats, s.keys.now);
  }

  /** Grants are 50 ms apart, 200 ms apart among repeats, and 1000 ms apart within a chat unless the chat's key was
      deleted in between. */
  lemma GrantsSpaced(run: seq<State>, acts: seq<Action>, i: nat, a: nat, b: nat)
    requires IsRun(run, acts) && i < |run| && a < b < |run[i].h.grants|
    ensures var g, later := run[i].h.grants[a], run[i].h.grants[b];
      && g.at + 50 * (b - a) <= later.at
      && (g.chat == later.chat && g.era == later.era ==> g.at + 1000 <= later.at)
      && (g.again && later.again ==> g.at + 200 <= later.at)
  {
    Reachable(run, acts, i);
    SpacedByCount(run[i].h.grants, a, b);
  }

  lemma {:induction false} SpacedByCount(grants: seq<Grant>, a: nat, b: nat)
    requires Spaced(grants) && a < b < |grants|
    ensures grants[a].at + GLOBAL_GAP * (b - a) <= grants[b].at
    decreases b - a
  {
    assert Respects(grants[b - 1], grants[b].chat, grants[b].again, grants[b].era, grants[b].at);
    if a < b - 1 {
      SpacedByCount(grants, a, b - 1);
    }
  }

  function InWindow(grants: seq<Grant>, from: nat, length: nat): set<nat> {
    set k: nat | k < |grants| && from <= grants[k].at <= from + length
  }

  lemma {:induction false} RangeSize(s: set<nat>, low: nat, count: nat)
    requires forall k :: k in s ==> low <= k < low + count
    ensures |s| <= count
    decreases count
  {
    if count == 0 {
      assert s == {};
    } else {
      var last := low + count - 1;
      RangeSize(s - {last}, low, count - 1);
    }
  }

  /** Any window of `length` milliseconds holds at most length / 50 + 1 grants. */
  lemma WindowBound(run: seq<State>, acts: seq<Action>, i: nat, from: nat, length: nat)
    requires IsRun(run, acts) && i < |run|
    ensures |InWindow(run[i].h.grants, from, length)| <= length / 50 + 1
  {
    var grants := run[i].h.grants;
    var s := InWindow(grants, from, length);
    Reachable(run, acts, i);
    if k :| k in s {
      var low := First(grants, from, length, k);
      forall b | b in s ensures low <= b < low + length / GLOBAL_GAP + 1 {
        if low < b {
          SpacedByCount(grants, low, b);
        }
      }
      RangeSize(s, low, length / GLOBAL_GAP + 1);
    } else {
      assert s == {};
    }
  }

  lemma {:induction false} First(grants: seq<Grant>, from: nat, length: nat, k: nat) returns (low: nat)
    requires k in InWindow(grants, from, length)
    ensures low in InWindow(grants, from, length) && forall b :: b in InWindow(grants, from, length) ==> low <= b
  {
    if b: nat :| b < k && b in InWindow(grants, from, length) {
      low := First(grants, from, length, b);
    } else {
      low := k;
    }
  }

  ghost predicate GrantsAt(s: State, a: Action) {
    a.Acquire? && Wait(s.keys, a.chat, a.again) == 0
  }

  lemma {:induction false} PauseRemembered(run: seq<State>, acts: seq<Action>, m: nat, k: nat)
    requires IsRun(run, acts) && m < k < |run| && acts[m].Pause?
    ensures run[m].keys.now + PauseLength(acts[m].seconds) in run[k].h.pauses
    decreases k - m
  {
    assert run[k] == After(run[k - 1], acts[k - 1]);
    if m < k - 1 {
      PauseRemembered(run, acts, m, k - 1);
    }
  }

  /** No grant falls within the seconds asked for, nor within the first second, of a pause, whatever shorter or longer
      pauses were asked for since. */
  lemma NoGrantInPause(run: seq<State>, acts: seq<Action>, m: nat, k: nat)
    requires IsRun(run, acts) && m < k < |acts| && acts[m].Pause? && GrantsAt(run[k], acts[k])
    ensures run[m].keys.now + 1000 * acts[m].seconds <= run[k].keys.now && run[m].keys.now + 1000 <= run[k].keys.now
  {
    PauseRemembered(run, acts, m, k);
    WaitIsExact(run, acts, k, acts[k].chat, acts[k].again);
  }

  lemma {:induction false} PausesAreAsked(run: seq<State>, acts: seq<Action>, k: nat, until: nat) returns (m: nat)
    requires IsRun(run, acts) && k < |run| && until in run[k].h.pauses
    ensures m < k && acts[m].Pause? && until == run[m].keys.now + if acts[m].seconds < 1 then 1000 else 1000 * acts[m].seconds
  {
    var s := run[k - 1];
    assert run[k] == After(s, acts[k - 1]);
    if until in s.h.pauses {
      m := PausesAreAsked(run, acts, k - 1, until);
    } else {
      m := k - 1;
    }
  }

  /** And a pause holds nobody up for longer: a wait is due to an earlier grant that is not far enough back, or to a pause
      whose seconds, at least one, are not over. */
  lemma WaitHasReason(run: seq<State>, acts: seq<Action>, k: nat, chat: int, again: bool)
    requires IsRun(run, acts) && k < |run| && Wait(run[k].keys, chat, again) > 0
    ensures
      || (exists m :: 0 <= m < k && acts[m].Pause? &&
            run[k].keys.now < run[m].keys.now + if acts[m].seconds < 1 then 1000 else 1000 * acts[m].seconds)
      || (exists g :: g in run[k].h.grants &&
            (run[k].keys.now < g.at + 50 || (g.chat == chat && run[k].keys.now < g.at + 1000) ||
             (g.again && again && run[k].keys.now < g.at + 200)))
  {
    WaitIsExact(run, acts, k, chat, again);
    Reachable(run, acts, k);
    var s := run[k];
    assert !Free(s.h, chat, again, s.keys.now);
    if until :| until in s.h.pauses && s.keys.now < until {
      var m := PausesAreAsked(run, acts, k, until);
    } else {
      var g :| g in s.h.grants && !Respects(g, chat, again, Era(s.h, chat), s.keys.now);
    }
  }

  // ---- Within one chat ---------------------------------------------------------------------------------------

  /** The era of a chat moves exactly when its key is deleted. */
  lemma {:induction false} EraMoves(run: seq<State>, acts: seq<Action>, i: nat, k: nat, chat: int)
    requires IsRun(run, acts) && i <= k < |run|
    ensures Era(run[i].h, chat) <= Era(run[k].h, chat)
    ensures Era(run[i].h, chat) == Era(run[k].h, chat) <==> forall m :: i <= m < k ==> acts[m] != DropChat(chat)
    decreases k - i
  {
    if i < k {
      EraMoves(run, acts, i, k - 1, chat);
      assert run[k] == After(run[k - 1], acts[k - 1]);
    }
  }

  lemma {:induction false} GrantRemembered(run: seq<State>, acts: seq<Action>, i: nat, k: nat)
    requires IsRun(run, acts) && i < k < |run| && GrantsAt(run[i], acts[i])
    ensures Grant(run[i].keys.now, acts[i].chat, acts[i].again, Era(run[i].h, acts[i].chat)) in run[k].h.grants
    decreases k - i
  {
    assert run[k] == After(run[k - 1], acts[k - 1]);
    if i < k - 1 {
      GrantRemembered(run, acts, i, k - 1);
    }
  }

  /** Two grants to one chat are 1000 ms apart if its key was not deleted in between. */
  lemma ChatSpacing(run: seq<State>, acts: seq<Action>, i: nat, k: nat)
    requires IsRun(run, acts) && i < k < |acts| && GrantsAt(run[i], acts[i]) && GrantsAt(run[k], acts[k])
    requires acts[i].chat == acts[k].chat && forall m :: i < m < k ==> acts[m] != DropChat(acts[i].chat)
    ensures run[i].keys.now + 1000 <= run[k].keys.now
  {
    GrantRemembered(run, acts, i, k);
    EraMoves(run, acts, i, k, acts[i].chat);
    WaitIsExact(run, acts, k, acts[k].chat, acts[k].again);
  }

  /** If a chat's key was never deleted, its limiter forgets nothing: every grant to the chat counts. */
  lemma ForgetsNothing(run: seq<State>, acts: seq<Action>, i: nat, chat: int, again: bool, t: nat)
    requires IsRun(run, acts) && i < |run| && forall m :: 0 <= m < i ==> acts[m] != DropChat(chat)
    ensures Free(run[i].h, chat, again, t) <==>
      (forall u :: u in run[i].h.pauses ==> u <= t) &&
      forall g :: g in run[i].h.grants ==>
        g.at + GLOBAL_GAP <= t && (g.chat == chat ==> g.at + CHAT_GAP <= t) && (g.again && again ==> g.at + REPEAT_GAP <= t)
  {
    Reachable(run, acts, i);
    EraMoves(run, acts, 0, i, chat);
    assert ChatOk(run[i], chat);
  }

  /** A deletion between two grants to one chat: they are 50 ms apart. */
  lemma DeletionBreaksChatSpacing() returns (run: seq<State>, acts: seq<Action>)
    ensures IsRun(run, acts) && |acts| == 4 && GrantsAt(run[0], acts[0]) && GrantsAt(run[3], acts[3])
    ensures acts[0].chat == acts[3].chat && run[3].keys.now == run[0].keys.now + GLOBAL_GAP
  {
    var s0 := State(Keys(0, None, map[], None), History([], [], map[]));
    acts := [Acquire(7, false), DropChat(7), Tick(GLOBAL_GAP), Acquire(7, false)];
    var s1 := After(s0, acts[0]);
    var s2 := After(s1, acts[1]);
    var s3 := After(s2, acts[2]);
    run := [s0, s1, s2, s3, After(s3, acts[3])];
  }
}
