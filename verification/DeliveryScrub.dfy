/** The deletion's scrub of the delivery stream while every other process goes on. */
module DeliveryScrub {
  import opened DeliveryState
  import opened DeliveryRun
  import opened DeliveryInvariant
  import opened DeliveryTheorems
  import opened DeliveryOnce
  import opened Options
  import opened Paging

  /** A page of entry ids, read at index `at` of the run. */
  datatype PageRead = PageRead(at: nat, page: seq<int>)

  ghost predicate Holds(w: World, id: int, u: int) {
    id >= 0 && id in w.r.entries && w.r.entries[id].event.recipient == u
  }

  /** The entries of `u` in `w'` were there in `w`. */
  ghost predicate AddsNone(w: World, w': World, u: int) {
    forall id {:trigger Holds(w', id, u)} :: Holds(w', id, u) ==> Holds(w, id, u)
  }

  lemma DeadLetterSameEntries(w: World, id: nat, j: Job)
    ensures SettleEntry(w, id, j, DeadLetter).r.entries == w.r.entries
  {
    var w1 := w.(r := StoreDeadLetter(w.r, id, j));
    assert w1.r.entries == w.r.entries;
    assert NoteMark(w1, j, Failed).r == w1.r && Close(w1, j, Privacy).r == w1.r;
  }

  lemma SettleSameEntries(w: World, id: nat, j: Job, how: Settlement)
    ensures SettleEntry(w, id, j, how).r.entries == w.r.entries
  {
    if how.DeadLetter? {
      DeadLetterSameEntries(w, id, j);
    }
  }

  lemma AdvanceSameEntries(w: World, t: nat, x: Answers)
    requires t in w.ops
    ensures AdvanceOp(w, t, x).r.entries == w.r.entries
  {
    hide Look, SettleEntry;
    var op := w.ops[t];
    if op.point.Settle? {
      SettleSameEntries(Leave(w, t), op.id, op.job, op.point.how);
      assert AdvanceOp(w, t, x) == SettleEntry(Leave(w, t), op.id, op.job, op.point.how);
    } else {
      hide AdvanceOp;
      CallSameEntries(w, t, x);
    }
  }

  lemma CallSameEntries(w: World, t: nat, x: Answers)
    requires t in w.ops && !w.ops[t].point.Settle?
    ensures AdvanceOp(w, t, x).r.entries == w.r.entries
  {
    hide Look, SettleEntry;
    if w.ops[t].point.CountFailure? {
      assert CountRetry(w.r, w.ops[t].id).entries == w.r.entries;
    } else if w.ops[t].point.Reguard? {
      assert AdvanceOp(w, t, x) == RenewOp(w, t, RecheckContent);
    } else if w.ops[t].point.EndSend? {
      assert AdvanceOp(w, t, x) == Ended(w, t);
    }
  }

  lemma OpSameEntries(w: World, a: Act)
    requires Enabled(w, a) && (a.Advance? || a.Heartbeat?)
    ensures After(w, a).r.entries == w.r.entries
  {
    hide AdvanceOp;
    if a.Heartbeat? {
      assert After(w, a) == RenewOp(w, a.token, w.ops[a.token].point);
    } else {
      AdvanceSameEntries(w, a.token, a.answers);
      assert After(w, a) == AdvanceOp(w, a.token, a.answers);
    }
  }

  lemma {:induction false} PopAddsNone(w: World, due: seq<Job>, u: int)
    requires u in w.r.deleted
    ensures AddsNone(w, PopJobs(w, due), u)
    decreases |due|
  {
    if due != [] {
      PopAddsNone(PopOneJob(w, due[0]), due[1..], u);
    }
  }

  lemma EnqueueAddsNone(w: World, a: Act, u: int)
    requires Enabled(w, a) && a.EnqueueAlert? && u in w.r.deleted
    ensures AddsNone(w, After(w, a), u)
  {
    assert Enqueues(w.r, a.event, a.generation) ==> After(w, a) == Accept(w, a.event, a.generation, a.stale, a.clock);
  }

  ghost predicate AddsNothing(w: World, w': World) {
    forall id :: id in w'.r.entries ==> id in w.r.entries && w'.r.entries[id] == w.r.entries[id]
  }

  lemma ClosingAddsNothing(w: World, a: Act)
    requires Enabled(w, a) && Closes(a)
    ensures AddsNothing(w, After(w, a))
  {
    hide AdvanceOp, RenewOp, PopJobs, SettleEntry;
  }

  lemma UserStepAddsNothing(w: World, a: Act)
    requires Enabled(w, a) && UserStep(a)
    ensures AddsNothing(w, After(w, a))
  {
    hide AdvanceOp, RenewOp, PopJobs, SettleEntry;
    if Closes(a) {
      ClosingAddsNothing(w, a);
      hide After;
    }
  }

  /** Apart from these acts, none adds an entry or changes one. */
  lemma OtherAddsNothing(w: World, a: Act)
    requires Enabled(w, a) && !a.PopMature? && !a.Advance? && !a.Heartbeat? && !a.EnqueueAlert?
    ensures AddsNothing(w, After(w, a))
  {
    hide AdvanceOp, RenewOp, PopJobs, SettleEntry, Claim, Accept, IsFloor, NextUnread, IsDue;
    if UserStep(a) {
      UserStepAddsNothing(w, a);
      hide After;
    } else if a.ClaimIdle? {
      ClaimFrame(w.r, a.id, a.consumer);
    }
  }

  /** Nothing enters the stream for a deleted recipient. */
  lemma StepAddsNone(w: World, a: Act, u: int)
    requires Enabled(w, a) && u in w.r.deleted
    ensures AddsNone(w, After(w, a), u)
  {
    if a.PopMature? {
      PopAddsNone(w, a.due, u);
      assert After(w, a) == PopJobs(w, a.due);
    } else if a.Advance? || a.Heartbeat? {
      OpSameEntries(w, a);
    } else if a.EnqueueAlert? {
      EnqueueAddsNone(w, a, u);
    } else {
      OtherAddsNothing(w, a);
    }
    hide After, Enabled;
  }

  lemma StepKeepsDeleted(w: World, a: Act, u: int)
    requires Enabled(w, a) && u in w.r.deleted && a != RegisterUser(u)
    ensures u in After(w, a).r.deleted
  {
    hide AdvanceOp, RenewOp, PopJobs, SettleEntry;
    if !Touches(a) {
      StepSameMarkers(w, a);
      hide After;
    }
  }

  ghost predicate NotRegistered(acts: seq<Act>, i: nat, k: nat, u: int)
    requires k <= |acts|
  {
    forall m :: i <= m < k ==> acts[m] != RegisterUser(u)
  }

  /** An entry of a recipient that has been deleted since index `i` has been in the stream since then. */
  lemma {:induction false} EntryWasThere(run: seq<World>, acts: seq<Act>, i: nat, k: nat, u: int, id: int)
    requires IsRun(run, acts) && i <= k < |run| && u in run[i].r.deleted && NotRegistered(acts, i, k, u)
    ensures u in run[k].r.deleted && (Holds(run[k], id, u) ==> Holds(run[i], id, u))
    decreases k - i
  {
    hide After, Enabled;
    if i < k {
      EntryWasThere(run, acts, i, k - 1, u, id);
      assert Enabled(run[k - 1], acts[k - 1]) && run[k] == After(run[k - 1], acts[k - 1]);
      StepAddsNone(run[k - 1], acts[k - 1], u);
      StepKeepsDeleted(run[k - 1], acts[k - 1], u);
    }
  }

  function Cursor(pages: seq<PageRead>, m: nat): Option<int>
    requires m <= |pages| && forall i :: 0 <= i < m ==> pages[i].page != []
  {
    if m == 0 then None else Some(pages[m - 1].page[|pages[m - 1].page| - 1])
  }

  /** Where the work on page `m` is over: where the next page is read, or at `end`. */
  function Over(pages: seq<PageRead>, m: nat, end: nat): nat {
    if m + 1 < |pages| then pages[m + 1].at else end
  }

  /** Page `m` is read beyond the page before it, and every entry of the recipient on it is then deleted by a command
      of its own. */
  ghost predicate PageScrubbed(run: seq<World>, acts: seq<Act>, u: int, pages: seq<PageRead>, m: nat, end: nat)
    requires m < |pages| && forall i :: 0 <= i < |pages| - 1 ==> pages[i].page != []
  {
    var p := pages[m];
    && p.at <= Over(pages, m, end) <= |acts| && |run| == |acts| + 1
    && IsPage(Ids(run[p.at].r), Cursor(pages, m), SCRUB_PAGE, p.page)
    && forall id {:trigger Holds(run[p.at], id, u)} :: id in p.page && Holds(run[p.at], id, u) ==>
         exists d :: p.at <= d < Over(pages, m, end) && acts[d] == ScrubDelete(id)
  }

  /** The scrub, whatever steps other processes take between its own: pages of 500 until one is short. */
  ghost predicate IsScrub(run: seq<World>, acts: seq<Act>, u: int, pages: seq<PageRead>, end: nat) {
    && pages != [] && |pages[|pages| - 1].page| < SCRUB_PAGE
    && (forall m :: 0 <= m < |pages| - 1 ==> |pages[m].page| == SCRUB_PAGE)
    && forall m :: 0 <= m < |pages| ==> PageScrubbed(run, acts, u, pages, m, end)
  }

  lemma {:induction false} PagesInOrder(run: seq<World>, acts: seq<Act>, u: int, pages: seq<PageRead>, end: nat, m: nat)
    requires IsScrub(run, acts, u, pages, end) && m < |pages|
    ensures pages[m].at <= Over(pages, m, end) <= end <= |acts| && |run| == |acts| + 1
    decreases |pages| - m
  {
    assert PageScrubbed(run, acts, u, pages, m, end);
    if m + 1 < |pages| {
      PagesInOrder(run, acts, u, pages, end, m + 1);
    }
  }

  /** An entry that stays in the stream lies beyond each cursor, or is on a page already read. */
  lemma {:induction false} OnSomePage(run: seq<World>, acts: seq<Act>, u: int, pages: seq<PageRead>, end: nat, m: nat, id: int)
    requires IsScrub(run, acts, u, pages, end) && m < |pages|
    requires forall i :: 0 <= i <= m ==> pages[i].at < |run| && Holds(run[pages[i].at], id, u)
    ensures (exists i :: 0 <= i <= m && id in pages[i].page) || (m + 1 < |pages| && Above(Cursor(pages, m + 1), id))
  {
    assert PageScrubbed(run, acts, u, pages, m, end);
    if m > 0 {
      OnSomePage(run, acts, u, pages, end, m - 1, id);
    }
    var p := pages[m].page;
    var ids := Ids(run[pages[m].at].r);
    assert id in ids;
    if id !in p && m + 1 < |pages| {
      assert p[|p| - 1] in p;
    }
  }

  /** When the scrub is over no entry of the recipient is in the stream, whatever all the other processes did
      meanwhile, and none gets there until he registers again. */
  lemma ScrubLeavesNone(run: seq<World>, acts: seq<Act>, u: int, pages: seq<PageRead>, end: nat, k: nat, id: int)
    requires IsRun(run, acts) && IsScrub(run, acts, u, pages, end) && end <= k < |run|
    requires pages[0].at < |run| && CleaningUser(run[pages[0].at], u)
    requires u !in run[pages[0].at].h.overlapped && NotRegistered(acts, pages[0].at, k, u)
    ensures !Holds(run[k], id, u)
  {
    hide After, Enabled, Inv, IsPage;
    if Holds(run[k], id, u) {
      var start := pages[0].at;
      PagesInOrder(run, acts, u, pages, end, 0);
      Reachable(run, acts, start);
      DeletedWhenCleaning(run[start], u);
      forall i | 0 <= i < |pages| ensures pages[i].at < |run| && Holds(run[pages[i].at], id, u) {
        StillThere(run, acts, u, pages, end, k, i, id);
      }
      OnSomePage(run, acts, u, pages, end, |pages| - 1, id);
      var i :| 0 <= i < |pages| && id in pages[i].page;
      assert PageScrubbed(run, acts, u, pages, i, end);
      var d :| pages[i].at <= d < Over(pages, i, end) && acts[d] == ScrubDelete(id);
      PagesInOrder(run, acts, u, pages, end, i);
      StartsFirst(run, acts, u, pages, end, i);
      EntryWasThere(run, acts, start, d + 1, u, id);
      EntryWasThere(run, acts, d + 1, k, u, id);
      DeletedIsGone(run, acts, d, id, u);
    }
  }

  lemma DeletedWhenCleaning(w: World, u: int)
    requires Inv(w) && CleaningUser(w, u) && u !in w.h.overlapped
    ensures u in w.r.deleted
  {
    assert UserOk(w, u);
  }

  lemma {:induction false} StartsFirst(run: seq<World>, acts: seq<Act>, u: int, pages: seq<PageRead>, end: nat, i: nat)
    requires IsScrub(run, acts, u, pages, end) && i < |pages|
    ensures pages[0].at <= pages[i].at
  {
    if i > 0 {
      StartsFirst(run, acts, u, pages, end, i - 1);
      assert PageScrubbed(run, acts, u, pages, i - 1, end);
    }
  }

  lemma StillThere(run: seq<World>, acts: seq<Act>, u: int, pages: seq<PageRead>, end: nat, k: nat, i: nat, id: int)
    requires IsRun(run, acts) && IsScrub(run, acts, u, pages, end) && end <= k < |run| && i < |pages|
    requires pages[0].at < |run| && u in run[pages[0].at].r.deleted && NotRegistered(acts, pages[0].at, k, u)
    requires Holds(run[k], id, u)
    ensures pages[i].at < |run| && Holds(run[pages[i].at], id, u)
  {
    PagesInOrder(run, acts, u, pages, end, i);
    StartsFirst(run, acts, u, pages, end, i);
    EntryWasThere(run, acts, pages[0].at, pages[i].at, u, id);
    EntryWasThere(run, acts, pages[i].at, k, u, id);
  }

  lemma DeletedIsGone(run: seq<World>, acts: seq<Act>, d: nat, id: int, u: int)
    requires IsRun(run, acts) && d < |acts| && id >= 0 && acts[d] == ScrubDelete(id)
    ensures !Holds(run[d + 1], id, u)
  {
    assert Enabled(run[d], acts[d]) && run[d + 1] == After(run[d], acts[d]);
  }
}
