/** Any number of `get_matches` calls, racing with cache updates. */
module LinearizableMatcher {
  // Each answer is naive matching against the phrase set as it stood at some instant between that call's version
  // read and its return.

  import opened Options
  import opened TriggerCache
  import opened Matcher

  /** What the matcher object remembers. */
  datatype Automaton = Unloaded | Loaded(version: Version, phrases: set<string>)

  datatype Call = Waiting(text: string, version: Version) | Loading(text: string, version: Version)

  /** `lock` is the asyncio lock: the call that holds it, if any. */
  datatype Sys = Sys(cache: Cache, automaton: Automaton, lock: Option<nat>, calls: map<nat, Call>)

  datatype Act =
    | Write(after: Cache)
    | Invoke(id: nat, text: string)
    | Enter(id: nat)
    | Load(id: nat)
    | Abort(id: nat)

  predicate Hit(s: Sys, id: nat)
    requires id in s.calls
  {
    s.automaton.Loaded? && s.automaton.version == s.calls[id].version
  }

  ghost predicate Enabled(s: Sys, a: Act) {
    match a
    case Write(after) => Changes(s.cache, after)
    case Invoke(id, _) => id !in s.calls
    case Enter(id) => id in s.calls && s.calls[id].Waiting? && s.lock == None
    case Load(id) => id in s.calls && s.calls[id].Loading? && s.lock == Some(id)
    case Abort(id) => id in s.calls
  }

  function Drop(s: Sys, id: nat): Sys {
    s.(calls := s.calls - {id}, lock := if s.lock == Some(id) then None else s.lock)
  }

  /** One atomic step. A call reads the version, waits for the lock, and answers at once from a current
      automaton; otherwise it keeps the lock while it fetches the phrases, rebuilds and answers. */
  function After(s: Sys, a: Act): Sys
    requires match a case Enter(id) => id in s.calls case Load(id) => id in s.calls case _ => true
  {
    match a
    case Write(after) => s.(cache := after)
    case Invoke(id, text) => s.(calls := s.calls[id := Waiting(text, s.cache.version)])
    case Enter(id) =>
      if Hit(s, id) then Drop(s, id)
      else s.(calls := s.calls[id := Loading(s.calls[id].text, s.calls[id].version)], lock := Some(id))
    case Load(id) =>
      if |s.cache.members| > MAX_GLOBAL_CUSTOM_TRIGGERS then Drop(s, id)
      else Drop(s.(automaton := Loaded(s.calls[id].version, s.cache.members)), id)
    case Abort(id) => Drop(s, id)
  }

  /** The answer of an answering step: a search of its text with the automaton it finds or has just built. */
  ghost function Answers(s: Sys, a: Act, isWord: char -> bool): Option<set<string>>
    requires match a case Enter(id) => id in s.calls case Load(id) => id in s.calls case _ => true
  {
    match a
    case Enter(id) => if Hit(s, id) then Some(NaiveMatches(isWord, s.automaton.phrases, s.calls[id].text)) else None
    case Load(id) =>
      if |s.cache.members| > MAX_GLOBAL_CUSTOM_TRIGGERS then None
      else Some(NaiveMatches(isWord, After(s, a).automaton.phrases, s.calls[id].text))
    case _ => None
  }

  ghost predicate IsRun(run: seq<Sys>, acts: seq<Act>) {
    && |run| == |acts| + 1
    && run[0].automaton == Unloaded && run[0].lock == None && run[0].calls == map[]
    && forall i :: 0 <= i < |acts| ==> Enabled(run[i], acts[i]) && run[i + 1] == After(run[i], acts[i])
  }

  lemma {:induction false} VersionsOrdered(run: seq<Sys>, acts: seq<Act>, i: nat, j: nat)
    requires IsRun(run, acts) && i <= j < |run|
    ensures Rank(run[i].cache.version) <= Rank(run[j].cache.version)
    ensures run[i].cache.version == run[j].cache.version ==> run[i].cache == run[j].cache
    decreases j - i
  {
    if i < j {
      VersionsOrdered(run, acts, i, j - 1);
      assert run[j] == After(run[j - 1], acts[j - 1]);
      if acts[j - 1].Write? {
        ChangeMovesVersion(run[j - 1].cache, run[j].cache);
      }
    }
  }

  /** The automaton was loaded at instant `k` for a version read no later than `k`. */
  ghost predicate LoadedAt(run: seq<Sys>, i: nat, k: nat) {
    && k <= i < |run|
    && run[i].automaton.Loaded?
    && run[i].automaton.phrases == run[k].cache.members
    && Rank(run[i].automaton.version) <= Rank(run[k].cache.version)
  }

  /** The call was invoked by step `k` and carries the version of that instant. */
  ghost predicate InvokedAt(run: seq<Sys>, acts: seq<Act>, i: nat, id: nat, k: nat) {
    && k < i < |run| && k < |acts|
    && id in run[i].calls
    && acts[k] == Invoke(id, run[i].calls[id].text)
    && run[i].calls[id].version == run[k].cache.version
    && (forall m :: k < m < i && m < |acts| ==> acts[m] != Invoke(id, run[i].calls[id].text))
  }

  lemma {:induction false} CallWasInvoked(run: seq<Sys>, acts: seq<Act>, i: nat, id: nat) returns (k: nat)
    requires IsRun(run, acts) && i < |run| && id in run[i].calls
    ensures InvokedAt(run, acts, i, id, k)
    decreases i
  {
    assert i > 0;
    assert Enabled(run[i - 1], acts[i - 1]) && run[i] == After(run[i - 1], acts[i - 1]);
    if acts[i - 1].Invoke? && acts[i - 1].id == id {
      k := i - 1;
    } else {
      k := CallWasInvoked(run, acts, i - 1, id);
    }
  }

  lemma {:induction false} AutomatonWasLoaded(run: seq<Sys>, acts: seq<Act>, i: nat) returns (k: nat)
    requires IsRun(run, acts) && i < |run| && run[i].automaton.Loaded?
    ensures LoadedAt(run, i, k)
    decreases i
  {
    assert i > 0;
    var a, s := acts[i - 1], run[i - 1];
    assert Enabled(s, a) && run[i] == After(s, a);
    if a.Load? && |s.cache.members| <= MAX_GLOBAL_CUSTOM_TRIGGERS {
      k := i - 1;
      var j := CallWasInvoked(run, acts, i - 1, a.id);
      VersionsOrdered(run, acts, j, k);
    } else {
      k := AutomatonWasLoaded(run, acts, i - 1);
    }
  }

  /** Linearizability: what step `i` answers is naive matching against the phrase set of an instant `m` between
      the step that invoked the call and the answer itself. */
  lemma Linearizable(run: seq<Sys>, acts: seq<Act>, i: nat, isWord: char -> bool) returns (invoked: nat, m: nat)
    requires IsRun(run, acts) && i < |acts| && Answers(run[i], acts[i], isWord).Some?
    ensures invoked <= m <= i
    ensures InvokedAt(run, acts, i, acts[i].id, invoked)
    ensures Answers(run[i], acts[i], isWord).value
         == NaiveMatches(isWord, run[m].cache.members, run[i].calls[acts[i].id].text)
  {
    assert Enabled(run[i], acts[i]);
    invoked := CallWasInvoked(run, acts, i, acts[i].id);
    if acts[i].Load? {
      m := i;
    } else {
      var k := AutomatonWasLoaded(run, acts, i);
      if invoked <= k {
        m := k;
      } else {
        m := invoked;
        VersionsOrdered(run, acts, k, invoked);
      }
    }
  }
}
