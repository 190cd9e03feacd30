/** The shared set of custom phrases, its version counter, and the two Lua scripts that change them. */
module TriggerCache {
  import opened Options

  /** The counter key: missing, or a positive number. */
  type Version = v: Option<nat> | v.Some? ==> v.value > 0 witness None

  datatype Cache = Cache(members: set<string>, version: Version)

  /** A missing counter counts as 0, so INCR makes it 1. */
  function Rank(v: Version): nat {
    if v.None? then 0 else v.value
  }

  function Bump(c: Cache, members: set<string>): Cache {
    Cache(members, Some(Rank(c.version) + 1))
  }

  /** UPDATE_TRIGGER_LUA: SADD or SREM, and a new version only if the set changed. */
  function Update(c: Cache, add: bool, phrase: string): (r: (Cache, int))
    ensures phrase in r.0.members <==> add
    ensures forall p :: p != phrase ==> (p in r.0.members <==> p in c.members)
    ensures r.1 == (if r.0.members == c.members then 0 else 1)
    ensures r.0.version == c.version <==> r.0.members == c.members
    ensures r.1 == 1 ==> r.0.version == Some(Rank(c.version) + 1)
  {
    if (phrase in c.members) == add then (c, 0)
    else (Bump(c, if add then c.members + {phrase} else c.members - {phrase}), 1)
  }

  /** RECONCILE_TRIGGERS_LUA: compare-and-swap of the whole set against a database snapshot. */
  function Reconcile(c: Cache, expected: Version, wanted: set<string>): (r: (Cache, int))
    ensures r.1 == -1 ==> r.0 == c && expected != c.version
    ensures r.1 != -1 ==> r.0.members == wanted && expected == c.version
    ensures r.1 == 1 <==> r.0.members != c.members
    ensures r.0.version == c.version <==> r.0.members == c.members
    ensures r.1 == 1 ==> r.0.version == Some(Rank(c.version) + 1)
  {
    if c.version != expected then (c, -1)
    else if c.members == wanted then (c, 0)
    else (Bump(c, wanted), 1)
  }

  /** One atomic change of the keys, by either script. */
  ghost predicate Changes(c: Cache, c': Cache) {
    || (exists add, phrase :: c' == Update(c, add, phrase).0)
    || (exists expected, wanted :: c' == Reconcile(c, expected, wanted).0)
  }

  lemma ChangeMovesVersion(c: Cache, c': Cache)
    requires Changes(c, c')
    ensures Rank(c.version) <= Rank(c'.version)
    ensures Rank(c.version) == Rank(c'.version) <==> c == c'
    ensures c.version == c'.version <==> c.members == c'.members
  {
  }

  lemma {:induction false} SubsetOfDistinct(args: seq<string>, s: set<string>)
    requires forall i, j :: 0 <= i < j < |args| ==> args[i] != args[j]
    requires forall p :: p in s ==> p in args
    ensures |s| <= |args|
    ensures |s| == |args| ==> forall p :: p in args ==> p in s
  {
    if args != [] {
      var last := args[|args| - 1];
      var rest := args[..|args| - 1];
      assert args == rest + [last];
      SubsetOfDistinct(rest, s - {last});
      assert last in s ==> |s| == |s - {last}| + 1;
    } else {
      assert s == {};
    }
  }

  /** The script's comparison: equal counts, then every member looked up in a table of the arguments. */
  method SameMembers(members: set<string>, args: seq<string>) returns (same: bool)
    requires forall i, j :: 0 <= i < j < |args| ==> args[i] != args[j]
    ensures same <==> members == set p | p in args
  {
    DistinctCount(args);
    same := |members| == |args|;
    if same {
      var wanted: map<string, bool> := map[];
      for i := 0 to |args|
        invariant forall p :: p in wanted <==> p in args[..i]
      {
        wanted := wanted[args[i] := true];
        assert args[..i + 1] == args[..i] + [args[i]];
      }
      assert args[..|args|] == args;
      var left := members;
      while left != {} && same
        invariant left <= members
        invariant same <==> forall p :: p in members && p !in left ==> p in args
        decreases |left|
      {
        var phrase :| phrase in left;
        left := left - {phrase};
        if phrase !in wanted {
          same := false;
        }
      }
      if same {
        SubsetOfDistinct(args, members);
      }
    }
  }

  /** The two Redis keys, changed in place by the scripts. */
  class TriggerKeys {
    var members: set<string>
    var version: Version

    constructor ()
      ensures State() == Cache({}, None)
    {
      members, version := {}, None;
    }

    function State(): Cache
      reads this
    {
      Cache(members, version)
    }

    method UpdateTrigger(add: bool, phrase: string) returns (changed: int)
      modifies this
      ensures (State(), changed) == Update(old(State()), add, phrase)
    {
      changed := if (phrase in members) == add then 0 else 1;
      if changed == 1 {
        members := if add then members + {phrase} else members - {phrase};
        version := Some(Rank(version) + 1);
      }
    }

    /** `args` are the script's ARGV from the second on: a sorted, hence duplicate-free, list. */
    method ReconcileTriggers(expected: Version, args: seq<string>) returns (reply: int)
      requires forall i, j :: 0 <= i < j < |args| ==> args[i] != args[j]
      modifies this
      ensures (State(), reply) == Reconcile(old(State()), expected, set p | p in args)
    {
      if version != expected {
        return -1;
      }
      var same := SameMembers(members, args);
      if same {
        return 0;
      }
      members := {};
      for i := 0 to |args|
        invariant members == set p | p in args[..i]
        invariant version == old(version)
      {
        members := members + {args[i]};
        assert args[..i + 1] == args[..i] + [args[i]];
      }
      assert args[..|args|] == args;
      version := Some(Rank(version) + 1);
      return 1;
    }
  }

  lemma {:induction false} DistinctCount(args: seq<string>)
    requires forall i, j :: 0 <= i < j < |args| ==> args[i] != args[j]
    ensures |set p | p in args| == |args|
  {
    if args != [] {
      var last := args[|args| - 1];
      var rest := args[..|args| - 1];
      assert args == rest + [last];
      DistinctCount(rest);
      assert (set p | p in args) == (set p | p in rest) + {last};
    }
  }

  // ---- Reconciliation against the database while phrases are being added -----------------------

  /** A periodic reconciliation in progress: the version read, then the database snapshot. */
  datatype Sync = VersionRead(version: Version) | SnapshotRead(version: Version, snapshot: set<string>)

  /** `statics` are the keys of the built-in locations. `adding` holds phrases committed to the database whose
      cache update is still outstanding; `completed` those whose cache update has returned. */
  datatype Store = Store(statics: set<string>, db: set<string>, cache: Cache, adding: map<nat, string>,
                         syncs: map<nat, Sync>, completed: set<string>)

  datatype Act =
    | Commit(id: nat, phrase: string)
    | Publish(id: nat)
    | Lose(id: nat)
    | BeginSync(id: nat)
    | ReadSnapshot(id: nat)
    | ApplySync(id: nat)
    | AbandonSync(id: nat)

  predicate Enabled(s: Store, a: Act) {
    match a
    case Commit(id, _) => id !in s.adding
    case Publish(id) => id in s.adding
    case Lose(id) => id in s.adding
    case BeginSync(id) => id !in s.syncs
    case ReadSnapshot(id) => id in s.syncs && s.syncs[id].VersionRead?
    case ApplySync(id) => id in s.syncs && s.syncs[id].SnapshotRead?
    case AbandonSync(id) => id in s.syncs
  }

  /** Adding commits to the database first and updates the cache second; reconciling reads the version
      first, the database without the built-in keys second, and swaps last. Either side may stop at any point. */
  function After(s: Store, a: Act): Store
    requires Enabled(s, a)
  {
    match a
    case Commit(id, phrase) => s.(db := s.db + {phrase}, adding := s.adding[id := phrase])
    case Publish(id) =>
      s.(cache := Update(s.cache, true, s.adding[id]).0, adding := s.adding - {id}, completed := s.completed + {s.adding[id]})
    case Lose(id) => s.(adding := s.adding - {id})
    case BeginSync(id) => s.(syncs := s.syncs[id := VersionRead(s.cache.version)])
    case ReadSnapshot(id) => s.(syncs := s.syncs[id := SnapshotRead(s.syncs[id].version, s.db - s.statics)])
    case ApplySync(id) =>
      s.(cache := Reconcile(s.cache, s.syncs[id].version, s.syncs[id].snapshot).0, syncs := s.syncs - {id})
    case AbandonSync(id) => s.(syncs := s.syncs - {id})
  }

  ghost predicate Run(s: Store, acts: seq<Act>)
    decreases |acts|
  {
    acts == [] || (Enabled(s, acts[0]) && Run(After(s, acts[0]), acts[1..]))
  }

  ghost function Final(s: Store, acts: seq<Act>): Store
    requires Run(s, acts)
    decreases |acts|
  {
    if acts == [] then s else Final(After(s, acts[0]), acts[1..])
  }

  /** The phrase is no built-in key, the database has it if the cache does, and no swap that could still succeed
      would drop it. */
  predicate SafeFor(s: Store, p: string) {
    && p !in s.statics
    && (p in s.cache.members ==> p in s.db)
    && (p in s.completed ==> p in s.cache.members)
    && (forall id :: id in s.adding && s.adding[id] == p ==> p in s.db)
    && (forall id :: id in s.syncs ==> SyncSafe(s, p, s.syncs[id]))
  }

  predicate SyncSafe(s: Store, p: string, sync: Sync) {
    && Rank(sync.version) <= Rank(s.cache.version)
    && (sync.SnapshotRead? && p in sync.snapshot ==> p in s.db)
    && (sync.SnapshotRead? && sync.version == s.cache.version && p in s.cache.members ==> p in sync.snapshot)
  }

  /** One step of an add-only run keeps a safe phrase safe, and in the cache if it is there. */
  lemma StepKeepsPhrase(s: Store, a: Act, p: string)
    requires SafeFor(s, p) && Enabled(s, a)
    ensures SafeFor(After(s, a), p) && (p in s.cache.members ==> p in After(s, a).cache.members)
  {
    var s' := After(s, a);
    if a.ApplySync? {
      assert SyncSafe(s, p, s.syncs[a.id]);
    }
    forall id | id in s'.syncs
      ensures SyncSafe(s', p, s'.syncs[id])
    {
      assert id in s.syncs ==> SyncSafe(s, p, s.syncs[id]);
    }
  }

  /** In an add-only run a safe phrase that is in the cache stays there, and once its addition has completed it is
      there, whatever reconciliation and the additions of other phrases do. */
  lemma {:induction false} AddOnlyNeverLoses(s: Store, acts: seq<Act>, p: string)
    requires SafeFor(s, p) && Run(s, acts)
    ensures SafeFor(Final(s, acts), p)
    ensures p in s.cache.members || p in Final(s, acts).completed ==> p in Final(s, acts).cache.members
    decreases |acts|
  {
    if acts != [] {
      StepKeepsPhrase(s, acts[0], p);
      AddOnlyNeverLoses(After(s, acts[0]), acts[1..], p);
    }
  }

  /** A completed addition of `p` survives every add-only run from a quiet start if and only if `p` is no built-in
      key and the cache did not hold it without the database. */
  lemma CompletedSurvivesIff(s: Store, p: string)
    requires s.adding == map[] && s.syncs == map[] && s.completed == {}
    ensures p !in s.statics && (p in s.cache.members ==> p in s.db) <==>
      forall acts :: Run(s, acts) && p in Final(s, acts).completed ==> p in Final(s, acts).cache.members
  {
    if p !in s.statics && (p in s.cache.members ==> p in s.db) {
      forall acts | Run(s, acts) && p in Final(s, acts).completed
        ensures p in Final(s, acts).cache.members
      {
        AddOnlyNeverLoses(s, acts, p);
      }
    } else if p in s.statics {
      var acts := LosingStaticRun(s, p);
    } else {
      var acts := LosingRun(s, p);
    }
  }

  /** A stale cached phrase is added for real between a snapshot and its swap: SADD changes nothing,
      so the version does not move and the swap drops the phrase. */
  lemma LosingRun(s: Store, p: string) returns (acts: seq<Act>)
    requires s.adding == map[] && s.syncs == map[] && s.completed == {}
    requires p in s.cache.members && p !in s.db
    ensures Run(s, acts) && p in Final(s, acts).completed && p !in Final(s, acts).cache.members
  {
    acts := [BeginSync(0), ReadSnapshot(0), Commit(0, p), Publish(0), ApplySync(0)];
    FiveSteps(s, acts);
  }

  /** A built-in key typed as a custom phrase is committed and cached, but no snapshot contains it: the next
      reconciliation drops it. */
  lemma LosingStaticRun(s: Store, p: string) returns (acts: seq<Act>)
    requires s.adding == map[] && s.syncs == map[] && s.completed == {}
    requires p in s.statics
    ensures Run(s, acts) && p in Final(s, acts).completed && p !in Final(s, acts).cache.members
  {
    acts := [Commit(0, p), Publish(0), BeginSync(0), ReadSnapshot(0), ApplySync(0)];
    FiveSteps(s, acts);
  }

  /** Runs of five steps, one step at a time. */
  lemma FiveSteps(s: Store, acts: seq<Act>)
    requires |acts| == 5 && Enabled(s, acts[0])
    requires Enabled(After(s, acts[0]), acts[1])
    requires Enabled(After(After(s, acts[0]), acts[1]), acts[2])
    requires Enabled(After(After(After(s, acts[0]), acts[1]), acts[2]), acts[3])
    requires Enabled(After(After(After(After(s, acts[0]), acts[1]), acts[2]), acts[3]), acts[4])
    ensures Run(s, acts) && Final(s, acts) ==
      After(After(After(After(After(s, acts[0]), acts[1]), acts[2]), acts[3]), acts[4])
  {
    var s1 := After(s, acts[0]);
    var s2 := After(s1, acts[1]);
    var s3 := After(s2, acts[2]);
    var s4 := After(s3, acts[3]);
    hide After, Enabled;
    RunOne(s4, acts[4..]);
    RunOne(s3, acts[3..]);
    RunOne(s2, acts[2..]);
    RunOne(s1, acts[1..]);
    RunOne(s, acts);
  }

  lemma RunOne(s: Store, acts: seq<Act>)
    requires acts != [] && Enabled(s, acts[0]) && Run(After(s, acts[0]), acts[1..])
    ensures Run(s, acts) && Final(s, acts) == Final(After(s, acts[0]), acts[1..])
  {
  }
}
