/** The fan-out of a source entry. */
module FanOut {
  // A source entry is fanned out to its matching users page by page, and acknowledged only after all of them.

  import opened DeliveryState
  import opened DeliveryRedis
  import opened Options
  import opened Paging

  const PAGE_SIZE: int := 500
  const MAX_PAGE_SIZE: int := 1000
  const MAX_DB_RETRIES: nat := 5

  datatype Profile = Profile(mutedUntil: Option<int>, categories: set<string>, triggers: set<string>)

  /** What a source entry looks for. */
  datatype Query = Query(categories: set<string>, words: set<string>)

  datatype Source = Source(chat: int, message: int, posted: int)

  function EventFor(s: Source, user: int): Event {
    Event(s.chat, s.message, user, s.posted)
  }

  /** Different posts, and different users, have different events. */
  lemma EventForInjective(s: Source, user: int, s': Source, user': int)
    ensures EventFor(s, user) == EventFor(s', user') <==> s == s' && user == user'
  {
  }

  predicate Matches(p: Profile, q: Query, now: int) {
    && (p.mutedUntil.Some? ==> p.mutedUntil.value < now)
    && p.categories * q.categories != {}
    && (q.words != {} ==> p.triggers * q.words != {})
  }

  function Targets(users: map<int, Profile>, q: Query, now: int): set<int> {
    set u | u in users && Matches(users[u], q, now)
  }

  /** The user is known, has no mute or one that ended before now, and shares some category with the post; and the post
      names no words, or one of them is a trigger of his. */
  ghost predicate Eligible(users: map<int, Profile>, q: Query, now: int, u: int) {
    && u in users
    && (users[u].mutedUntil.Some? ==> users[u].mutedUntil.value < now)
    && (exists c: string :: c in users[u].categories && c in q.categories)
    && (q.words != {} ==> exists w: string :: w in users[u].triggers && w in q.words)
  }

  lemma TargetsAreEligible(users: map<int, Profile>, q: Query, now: int)
    ensures forall u :: u in Targets(users, q, now) <==> Eligible(users, q, now, u)
  {
    forall u | u in users
      ensures Matches(users[u], q, now) <==> Eligible(users, q, now, u)
    {
      Meet(users[u].categories, q.categories);
      Meet(users[u].triggers, q.words);
    }
  }

  lemma Meet(a: set<string>, b: set<string>)
    ensures a * b != {} <==> exists x: string :: x in a && x in b
  {
    if x: string :| x in a && x in b {
      assert x in a * b;
    } else {
      assert forall x :: x in a * b <==> x in {};
    }
  }

  /** get_target_user_ids_page; None is the ValueError. An empty category set is answered before the size check. */
  method GetTargetUserIdsPage(users: map<int, Profile>, q: Query, now: int, after: Option<int>, pageSize: int)
    returns (page: Option<seq<int>>)
    ensures page.None? <==> q.categories != {} && !(1 <= pageSize <= 1000)
    ensures page.Some? && 1 <= pageSize ==> IsPage(Targets(users, q, now), after, pageSize, page.value)
    ensures q.categories == {} ==> page == Some([])
    ensures page.Some? && 1 <= pageSize ==> |page.value| <= pageSize && forall u :: u in page.value ==>
              Eligible(users, q, now, u) && Above(after, u)
    ensures page.Some? && 1 <= pageSize ==> forall u :: Eligible(users, q, now, u) && Above(after, u) && u !in page.value ==>
              |page.value| == pageSize && forall v :: v in page.value ==> v < u
  {
    TargetsAreEligible(users, q, now);
    if q.categories == {} {
      assert forall u :: u in users ==> users[u].categories * q.categories == {};
      assert forall u :: u !in Targets(users, q, now);
      return Some([]);
    }
    if !(1 <= pageSize <= MAX_PAGE_SIZE) { return None; }
    var ids := TakePage(Targets(users, q, now), after, pageSize);
    return Some(ids);
  }

  /** A mute only runs out: with a fixed user table the targets at a later moment include those at an earlier one. */
  lemma TargetsGrow(users: map<int, Profile>, q: Query, now: int, later: int)
    requires now <= later
    ensures Targets(users, q, now) <= Targets(users, q, later)
  {
    forall u | u in Targets(users, q, now) ensures u in Targets(users, q, later) {
      assert Matches(users[u], q, later);
    }
  }

  /** After its enqueue script the recipient holds a live marker, or the script refused the generation it was given. */
  predicate Handled(r: Redis, e: Event, generation: nat) {
    IsEnqueued(r, e) || e.recipient in r.deleted || Generation(r, e.recipient) != generation
  }

  /** The call is an enqueue script of the event, with the effect that the script has. */
  predicate IsOffer(c: Call, e: Event, generation: nat, stale: bool) {
    && c.command.EnqueueCall? && c.command == EnqueueCall(e, generation, stale, c.command.clock)
    && c.after == if Enqueues(c.before, e, generation) then Enqueued(c.before, e, generation, stale, c.command.clock) else c.before
  }

  lemma OfferHandles(c: Call, e: Event, generation: nat, stale: bool)
    requires IsOffer(c, e, generation, stale)
    ensures Handled(c.after, e, generation)
  {
  }

  /** enqueue_alert reads the recipient's generation and then sends the script with it. */
  predicate IsOffering(look: Call, offer: Call, e: Event, stale: bool) {
    && look.command == LookCall && look.after == look.before
    && IsOffer(offer, e, Generation(look.before, e.recipient), stale)
  }

  /** The calls are one offering for each of the users, in their order, and no others. */
  predicate OffersAll(calls: seq<Call>, s: Source, stale: bool, users: seq<int>) {
    && |calls| == 2 * |users|
    && forall i {:trigger users[i]} :: 0 <= i < |users| ==> IsOffering(calls[2 * i], calls[2 * i + 1], EventFor(s, users[i]), stale)
  }

  lemma OffersOneMore(calls: seq<Call>, look: Call, offer: Call, s: Source, stale: bool, users: seq<int>, u: int)
    requires OffersAll(calls, s, stale, users) && IsOffering(look, offer, EventFor(s, u), stale)
    ensures OffersAll(calls + [look] + [offer], s, stale, users + [u])
  {
  }

  datatype Result = Completed | DbFailure | Died

  const RETRY_LIFE: nat := 3600 * SECOND

  class Worker {
    const server: Server
    var pending: bool
    var retries: Expiring<nat>
    var deadLetters: nat
    /** How many more commands the process is given before it dies, and how many more pages the database answers before
        it fails: any numbers. */
    var lives: nat
    var pages: nat

    constructor (server: Server, lives: nat, pages: nat)
      ensures this.server == server && pending && retries == Expiring(0, 0) && deadLetters == 0
      ensures this.lives == lives && this.pages == pages
    {
      this.server, this.lives, this.pages := server, lives, pages;
      pending, retries, deadLetters := true, Expiring(0, 0), 0;
    }

    /** enqueue_alert, unless the process dies before one of its two commands. */
    method EnqueueAlert(e: Event, stale: bool) returns (alive: bool, added: bool, ghost calls: seq<Call>)
      requires server.Valid()
      modifies server, this`lives
      ensures server.Valid() && server.calls == old(server.calls) + calls && lives == old(lives) - |calls|
      ensures if alive then |calls| == 2 && IsOffering(calls[0], calls[1], e, stale) else lives == 0 && |calls| <= 1
      ensures alive && added ==> IsEnqueued(calls[1].after, e)
    {
      alive, added, calls := false, false, [];
      if lives == 0 { return; }
      lives := lives - 1;
      server.Interfere();
      ghost var past := server.calls;
      server.Look();
      var generation := Generation(server.State(), e.recipient);
      calls := [Call(LookCall, server.State(), server.State())];
      server.Interfere();
      if lives == 0 { return; }
      lives := lives - 1;
      var clock: int := *;
      ghost var before := server.State();
      var n := server.EnqueueAlert(e, generation, stale, clock);
      calls := calls + [Call(EnqueueCall(e, generation, stale, clock), before, server.State())];
      alive, added := true, n == 1;
      ghost var sent := server.calls;
      server.Interfere();
      assert server.calls == past + calls;
    }

    /** The retry counter as INCR finds it. */
    function Retries(now: nat): nat
      reads this
    {
      if now < retries.expires then retries.value else 0
    }

    /** _handle_db_failure: the sixth failure, each within an hour of the one before, is dead-lettered and acknowledged. */
    method HandleDbFailure()
      modifies this`pending, this`retries, this`deadLetters
      ensures var n := old(Retries(server.now)) + 1;
        if n <= 5
        then pending == old(pending) && deadLetters == old(deadLetters) && retries == Expiring(n, server.now + 3600 * 1000)
        else !pending && deadLetters == old(deadLetters) + 1 && Retries(server.now) == 0
    {
      retries := Expiring(Retries(server.now) + 1, server.now + RETRY_LIFE);
      if retries.value > MAX_DB_RETRIES {
        deadLetters := deadLetters + 1;
        pending := false;
        retries := Expiring(0, 0);
      }
    }

    /** _dispatch_alerts for one page; the process may die at any recipient. */
    method DispatchAlerts(s: Source, page: seq<int>, stale: bool) returns (alive: bool, ghost calls: seq<Call>, ghost offered: nat)
      requires server.Valid()
      modifies server, this`lives
      ensures server.Valid() && server.calls == old(server.calls) + calls && lives == old(lives) - |calls|
      ensures offered <= |page| && 2 * offered <= |calls| && OffersAll(calls[..2 * offered], s, stale, page[..offered])
      ensures if alive then offered == |page| && |calls| == 2 * offered else lives == 0 && |calls| <= 2 * offered + 1
    {
      calls, offered := [], 0;
      for i := 0 to |page|
        invariant server.Valid() && server.calls == old(server.calls) + calls && lives == old(lives) - |calls|
        invariant offered == i && OffersAll(calls, s, stale, page[..i])
      {
        ghost var more;
        var added;
        ghost var before := calls;
        alive, added, more := EnqueueAlert(EventFor(s, page[i]), stale);
        calls := calls + more;
        if !alive {
          assert calls[..2 * offered] == before;
          return;
        }
        OffersOneMore(before, more[0], more[1], s, stale, page[..i], page[i]);
        assert calls == before + [more[0]] + [more[1]] && page[..i + 1] == page[..i] + [page[i]];
        offered := offered + 1;
      }
      assert page[..|page|] == page && calls[..2 * offered] == calls;
      alive := true;
    }

    /** A page after those before it. */
    method OfferPage(s: Source, page: seq<int>, stale: bool, ghost visited: seq<int>, ghost calls: seq<Call>,
                     ghost past: seq<Call>, ghost given: nat)
      returns (alive: bool, ghost calls': seq<Call>, ghost offered: nat)
      requires server.Valid() && server.calls == past + calls && lives == given - |calls|
      requires OffersAll(calls, s, stale, visited) && |calls| == 2 * |visited|
      modifies server, this`lives
      ensures server.Valid() && server.calls == past + calls' && lives == given - |calls'|
      ensures offered <= |visited + page| && 2 * offered <= |calls'| && OffersAll(calls'[..2 * offered], s, stale, (visited + page)[..offered])
      ensures alive ==> offered == |visited + page| && |calls'| == 2 * offered && OffersAll(calls', s, stale, visited + page)
      ensures !alive ==> lives == 0 && |calls'| <= 2 * offered + 1
    {
      ghost var more, reached;
      alive, more, reached := DispatchAlerts(s, page, stale);
      MoreOffers(calls, more, s, stale, visited, page, reached);
      calls', offered := calls + more, |visited| + reached;
    }

    /** The paging loop of process_single_stream_payload. `started` and `ended` are the clock at the first and at the
        last page; the user table is fixed. Of the users visited the first `offered` were offered the alert. */
    method OfferPages(s: Source, users: map<int, Profile>, q: Query, stale: bool, started: int)
      returns (result: Result, ghost ended: int, ghost visited: seq<int>, ghost offered: nat, ghost calls: seq<Call>)
      requires server.Valid()
      modifies this`lives, this`pages, server
      ensures server.Valid() && server.calls == old(server.calls) + calls
      ensures Ascending(visited) && forall u :: u in visited ==> Eligible(users, q, ended, u)
      ensures offered <= |visited| && 2 * offered <= |calls| <= 2 * offered + 1
      ensures OffersAll(calls[..2 * offered], s, stale, visited[..offered])
      ensures match result
              case Completed =>
                offered == |visited| && |calls| == 2 * offered && forall u :: Eligible(users, q, started, u) ==> u in visited
              case Died => old(lives) == |calls|
              case DbFailure => old(pages) <= |visited|
    {
      visited, calls, offered, ended := [], [], 0, started;
      var clock := started;
      var after: Option<int> := None;
      var full := true;
      hide OffersAll, Targets, Swept, IsPage, Eligible;
      TargetsAreEligible(users, q, started);
      NoneYet(s, users, q, stale, started);
      while full
        invariant started <= clock == ended
        invariant Swept(Targets(users, q, started), Targets(users, q, clock), after, visited)
        invariant Ascending(visited) && forall u :: u in visited ==> u in Targets(users, q, clock)
        invariant server.Valid() && server.calls == old(server.calls) + calls && lives == old(lives) - |calls|
        invariant offered == |visited| && |calls| == 2 * offered && OffersAll(calls, s, stale, visited)
        invariant !full ==> forall u :: u in Targets(users, q, started) ==> u in visited
        invariant pages <= old(pages) <= pages + |visited|
        decreases full, users.Keys - Elements(visited)
      {
        var before := clock;
        clock :| before <= clock;
        ended := clock;
        TargetsGrow(users, q, before, clock);
        TargetsGrow(users, q, started, clock);
        SweptGrows(Targets(users, q, started), Targets(users, q, before), Targets(users, q, clock), after, visited);
        TargetsAreEligible(users, q, clock);
        assert calls[..2 * offered] == calls && visited[..offered] == visited;
        if pages == 0 { return DbFailure, ended, visited, offered, calls; }
        pages := pages - 1;
        var answer := GetTargetUserIdsPage(users, q, clock, after, PAGE_SIZE);
        var page := answer.value;
        if page == [] {
          SweptAll(Targets(users, q, started), Targets(users, q, clock), after, visited);
          break;
        }
        PageAdvances(Targets(users, q, started), Targets(users, q, clock), Targets(users, q, clock), after, PAGE_SIZE, visited, page);
        SweptMembers(Targets(users, q, started), Targets(users, q, clock), Some(page[|page| - 1]), visited + page);
        NewElement(users, q, clock, visited, page);
        var alive;
        alive, calls, offered := OfferPage(s, page, stale, visited, calls, old(server.calls), old(lives));
        visited := visited + page;
        if !alive { return Died, ended, visited, offered, calls; }
        after := Some(page[|page| - 1]);
        full := |page| >= 500;
      }
      assert calls[..2 * offered] == calls && visited[..offered] == visited;
      result := Completed;
    }

    /** The entry is acknowledged when every page has been offered; a failure of the database is counted. */
    method FanOut(s: Source, users: map<int, Profile>, q: Query, stale: bool, started: int)
      returns (result: Result, ghost ended: int, ghost visited: seq<int>, ghost offered: nat, ghost calls: seq<Call>)
      requires pending && server.Valid()
      modifies this`pending, this`retries, this`deadLetters, this`lives, this`pages, server
      ensures server.Valid() && server.calls == old(server.calls) + calls
      ensures Ascending(visited) && forall u :: u in visited ==> Eligible(users, q, ended, u)
      ensures offered <= |visited| && 2 * offered <= |calls| <= 2 * offered + 1
      ensures OffersAll(calls[..2 * offered], s, stale, visited[..offered])
      ensures match result
              case Completed =>
                && offered == |visited| && |calls| == 2 * offered && (forall u :: Eligible(users, q, started, u) ==> u in visited)
                && !pending && deadLetters == old(deadLetters)
              case Died => old(lives) == |calls| && pending && retries == old(retries) && deadLetters == old(deadLetters)
              case DbFailure =>
                && old(pages) <= |visited|
                && (if pending then deadLetters == old(deadLetters) && 1 <= retries.value <= 5
                    else deadLetters == old(deadLetters) + 1)
    {
      hide Eligible, OffersAll;
      result, ended, visited, offered, calls := OfferPages(s, users, q, stale, started);
      match result {
        case Completed =>
          pending := false;
          retries := Expiring(0, 0);
        case DbFailure => HandleDbFailure();
        case Died =>
      }
    }
  }

  lemma NewElement(users: map<int, Profile>, q: Query, now: int, visited: seq<int>, page: seq<int>)
    requires page != [] && page[0] in Targets(users, q, now) && page[0] !in visited
    ensures users.Keys - Elements(visited + page) < users.Keys - Elements(visited)
  {
    assert page[0] in visited + page;
    assert page[0] in users.Keys - Elements(visited);
    assert page[0] !in users.Keys - Elements(visited + page);
    assert forall k :: k in visited ==> k in visited + page;
  }

  lemma NoneYet(s: Source, users: map<int, Profile>, q: Query, stale: bool, now: int)
    ensures Swept(Targets(users, q, now), Targets(users, q, now), None, []) && OffersAll([], s, stale, [])
  {
  }

  lemma SweptGrows(low: set<int>, high: set<int>, high': set<int>, after: Option<int>, visited: seq<int>)
    requires Swept(low, high, after, visited) && high <= high'
    ensures Swept(low, high', after, visited)
    ensures Ascending(visited) && forall u :: u in visited ==> u in high'
  {
  }

  lemma SweptMembers(low: set<int>, high: set<int>, after: Option<int>, visited: seq<int>)
    requires Swept(low, high, after, visited)
    ensures Ascending(visited) && forall u :: u in visited ==> u in high
  {
  }

  /** An empty page: everything has been visited. */
  lemma SweptAll(low: set<int>, high: set<int>, after: Option<int>, visited: seq<int>)
    requires Swept(low, high, after, visited) && low <= high && IsPage(high, after, PAGE_SIZE, [])
    ensures forall u :: u in low ==> u in visited
  {
  }

  lemma MoreOffers(calls: seq<Call>, more: seq<Call>, s: Source, stale: bool, visited: seq<int>, page: seq<int>, n: nat)
    requires OffersAll(calls, s, stale, visited) && n <= |page| && 2 * n <= |more| && OffersAll(more[..2 * n], s, stale, page[..n])
    ensures OffersAll((calls + more)[..2 * (|visited| + n)], s, stale, (visited + page)[..|visited| + n])
    ensures n == |page| && |more| == 2 * n ==> OffersAll(calls + more, s, stale, visited + page)
  {
    var all, users := (calls + more)[..2 * (|visited| + n)], (visited + page)[..|visited| + n];
    assert |calls| == 2 * |visited|;
    forall i | 0 <= i < |users|
      ensures IsOffering(all[2 * i], all[2 * i + 1], EventFor(s, users[i]), stale)
    {
      if i < |visited| {
        assert visited[i] == users[i];
      } else {
        var k := i - |visited|;
        assert page[..n][k] == users[i];
        assert more[..2 * n][2 * k] == all[2 * i] && more[..2 * n][2 * k + 1] == all[2 * i + 1];
      }
    }
    if n == |page| && |more| == 2 * n {
      assert all == calls + more && users == visited + page;
    }
  }
}
