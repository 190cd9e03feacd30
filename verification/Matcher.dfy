/** The Aho-Corasick matcher. */
module Matcher {
  // Trie, failure links, merged outputs and boundary scan for user-defined phrases.

  import opened Options
  import opened Strings

  const MAX_GLOBAL_CUSTOM_TRIGGERS := 5000

  // ---- What is searched for -----------------------------------------------------------------

  /** `text` holds `phrase` ending just before `end`. */
  predicate EndsAt(text: string, phrase: string, end: nat) {
    |phrase| <= end <= |text| && text[end - |phrase|..end] == phrase
  }

  /** The one-keyword pattern (?<![\w])(phrase)\w{0,3}(?![\w]) matches with the keyword ending at `end`. */
  ghost predicate PatternAt(isWord: char -> bool, text: string, phrase: string, end: nat) {
    && EndsAt(text, phrase, end)
    && (end > |phrase| ==> !isWord(text[end - |phrase| - 1]))
    && exists k: nat :: PatternSuffix(isWord, text, end, k)
  }

  /** `\w{0,3}(?![\w])` consumes exactly `k` characters from `end`. */
  predicate PatternSuffix(isWord: char -> bool, text: string, end: nat, k: nat) {
    && k <= 3 && end + k <= |text|
    && (forall i :: end <= i < end + k ==> isWord(text[i]))
    && (end + k < |text| ==> !isWord(text[end + k]))
  }

  ghost predicate Found(isWord: char -> bool, text: string, phrase: string) {
    exists end: nat :: PatternAt(isWord, text, phrase, end)
  }

  ghost predicate FoundBy(isWord: char -> bool, text: string, phrase: string, end: nat) {
    exists e: nat :: e <= end && PatternAt(isWord, text, phrase, e)
  }

  lemma FoundNext(isWord: char -> bool, text: string, end: nat)
    ensures forall p :: FoundBy(isWord, text, p, end + 1) <==>
              FoundBy(isWord, text, p, end) || PatternAt(isWord, text, p, end + 1)
  {
    hide PatternAt;
    forall p | FoundBy(isWord, text, p, end + 1)
      ensures FoundBy(isWord, text, p, end) || PatternAt(isWord, text, p, end + 1)
    {
      var e: nat :| e <= end + 1 && PatternAt(isWord, text, p, e);
    }
  }

  lemma FoundAtEnd(isWord: char -> bool, text: string)
    ensures forall p :: FoundBy(isWord, text, p, |text|) <==> Found(isWord, text, p)
  {
  }

  /** Naive search: the answer the automaton has to give. */
  ghost function NaiveMatches(isWord: char -> bool, phrases: set<string>, text: string): set<string> {
    set p | p in phrases && Found(isWord, text, p)
  }

  // ---- The trie -----------------------------------------------------------------------------

  type Edges = seq<map<char, nat>>

  /** `word[n]` spells node n; `parent[n]` is the node it was added under. */
  ghost predicate Trie(edges: Edges, word: seq<string>, parent: seq<nat>) {
    && |edges| == |word| == |parent| > 0
    && word[0] == []
    && (forall i, j :: 0 <= i < j < |word| ==> word[i] != word[j])
    && (forall n, c :: 0 <= n < |edges| && c in edges[n] ==> Edge(edges, word, parent, n, c))
    && (forall n :: 0 < n < |word| ==> Hangs(edges, word, parent, n))
  }

  ghost predicate Edge(edges: Edges, word: seq<string>, parent: seq<nat>, n: nat, c: char)
    requires |edges| == |word| == |parent| && n < |edges| && c in edges[n]
  {
    n < edges[n][c] < |edges| && word[edges[n][c]] == word[n] + [c] && parent[edges[n][c]] == n
  }

  ghost predicate Hangs(edges: Edges, word: seq<string>, parent: seq<nat>, n: nat)
    requires |edges| == |word| == |parent| && 0 < n < |edges|
  {
    && word[n] != [] && parent[n] < n
    && Last(word[n]) in edges[parent[n]] && edges[parent[n]][Last(word[n])] == n
  }

  function Last(w: string): char
    requires w != []
  {
    w[|w| - 1]
  }

  /** Node n spells the longest suffix of `t` that is in the trie. */
  ghost predicate LongestIn(word: seq<string>, t: string, n: nat) {
    && n < |word| && Suffix(word[n], t)
    && forall m {:trigger Suffix(word[m], t)} :: 0 <= m < |word| && Suffix(word[m], t) ==> |word[m]| <= |word[n]|
  }

  /** Every trie suffix of `t` that can be extended by `c` is a suffix of node `cur`. */
  ghost predicate Reaches(edges: Edges, word: seq<string>, t: string, c: char, cur: nat)
    requires |edges| == |word|
  {
    && cur < |word| && Suffix(word[cur], t)
    && forall m {:trigger Suffix(word[m], t)} :: 0 <= m < |word| && Suffix(word[m], t) && c in edges[m] ==> |word[m]| <= |word[cur]|
  }

  lemma HangsWord(edges: Edges, word: seq<string>, parent: seq<nat>, n: nat)
    requires Trie(edges, word, parent) && 0 < n < |word|
    ensures Hangs(edges, word, parent, n) && word[n] == word[parent[n]] + [Last(word[n])]
  {
  }

  lemma WordHasEdge(edges: Edges, word: seq<string>, parent: seq<nat>, n: nat, c: char, m: nat)
    requires Trie(edges, word, parent) && n < |word| && m < |word| && word[m] == word[n] + [c]
    ensures c in edges[n] && edges[n][c] == m
  {
    assert m != 0;
    HangsWord(edges, word, parent, m);
    assert word[parent[m]] == word[m][..|word[m]| - 1] == word[n];
    assert parent[m] == n;
  }

  lemma LongestReaches(edges: Edges, word: seq<string>, t: string, c: char, n: nat)
    requires |edges| == |word| && LongestIn(word, t, n)
    ensures Reaches(edges, word, t, c, n)
  {
  }

  /** One fallback step keeps every extendable suffix in reach and moves strictly up. */
  lemma FallBack(edges: Edges, word: seq<string>, parent: seq<nat>, t: string, c: char, cur: nat, f: nat)
    requires Trie(edges, word, parent) && Reaches(edges, word, t, c, cur)
    requires cur != 0 && c !in edges[cur] && LongestIn(word, word[cur][1..], f)
    ensures Reaches(edges, word, t, c, f) && |word[f]| < |word[cur]|
  {
    HangsWord(edges, word, parent, cur);
    SuffixOfTail(word[f], word[cur]);
    SuffixTransitive(word[f], word[cur], t);
    forall m | 0 <= m < |word| && Suffix(word[m], t) && c in edges[m]
      ensures |word[m]| <= |word[f]|
    {
      SuffixesNest(word[m], word[cur], t);
      assert m != cur;
      SuffixOfTail(word[m], word[cur]);
    }
  }

  function Goto(edges: Edges, cur: nat, c: char): nat
    requires cur < |edges|
  {
    if c in edges[cur] then edges[cur][c] else 0
  }

  /** When the fallback loop stops, following the edge gives the longest suffix of the extended text. */
  lemma Land(edges: Edges, word: seq<string>, parent: seq<nat>, t: string, c: char, cur: nat)
    requires Trie(edges, word, parent) && Reaches(edges, word, t, c, cur)
    requires cur == 0 || c in edges[cur]
    ensures LongestIn(word, t + [c], Goto(edges, cur, c))
    ensures |word[Goto(edges, cur, c)]| <= |word[cur]| + 1
  {
    var g := Goto(edges, cur, c);
    if c in edges[cur] {
      assert Edge(edges, word, parent, cur, c);
      SuffixExtend(word[cur], t, c);
    } else {
      assert (t + [c])[|t + [c]|..] == [];
    }
    forall m | 0 <= m < |word| && Suffix(word[m], t + [c])
      ensures |word[m]| <= |word[g]|
    {
      if m != 0 {
        HangsWord(edges, word, parent, m);
        SuffixShrink(word[parent[m]], Last(word[m]), t, c);
        assert |word[parent[m]]| <= |word[cur]|;
        assert |word[parent[m]]| == 0 ==> parent[m] == 0;
      }
    }
  }

  // ---- The cost of a scan --------------------------------------------------------------------

  /** Every failure link leads to a shallower node. */
  ghost predicate Descends(word: seq<string>, fail: seq<nat>) {
    |fail| == |word| && forall n :: 0 < n < |fail| ==> fail[n] < |fail| && |word[fail[n]]| < |word[n]|
  }

  /** The node reached from `n` on `c`. */
  ghost function Next(edges: Edges, word: seq<string>, fail: seq<nat>, n: nat, c: char): nat
    requires n < |edges| == |word| && Descends(word, fail)
    decreases |word[n]|
  {
    if n == 0 || c in edges[n] then Goto(edges, n, c) else Next(edges, word, fail, fail[n], c)
  }

  /** The number of failure links on the way. */
  ghost function Links(edges: Edges, word: seq<string>, fail: seq<nat>, n: nat, c: char): nat
    requires n < |edges| == |word| && Descends(word, fail)
    decreases |word[n]|
  {
    if n == 0 || c in edges[n] then 0 else 1 + Links(edges, word, fail, fail[n], c)
  }

  lemma {:induction false} NextBound(edges: Edges, word: seq<string>, parent: seq<nat>, fail: seq<nat>, n: nat, c: char)
    requires Trie(edges, word, parent) && n < |word| && Descends(word, fail)
    ensures var m := Next(edges, word, fail, n, c); m < |word| && Links(edges, word, fail, n, c) + |word[m]| <= |word[n]| + 1
    decreases |word[n]|
  {
    if c in edges[n] {
      assert Edge(edges, word, parent, n, c);
    } else if n != 0 {
      NextBound(edges, word, parent, fail, fail[n], c);
    }
  }

  /** The number of failure links followed over a text that is read from node `n` on. */
  ghost function TextLinks(edges: Edges, word: seq<string>, parent: seq<nat>, fail: seq<nat>, n: nat, text: string): nat
    requires Trie(edges, word, parent) && n < |word| && Descends(word, fail)
    decreases |text|
  {
    if text == [] then 0
    else
      NextBound(edges, word, parent, fail, n, text[0]);
      Links(edges, word, fail, n, text[0]) + TextLinks(edges, word, parent, fail, Next(edges, word, fail, n, text[0]), text[1..])
  }

  /** A text read from the root never costs more failure links than it has characters: each link is paid for by the
      depth that an earlier character has gained. */
  lemma {:induction false} TextLinksBound(edges: Edges, word: seq<string>, parent: seq<nat>, fail: seq<nat>, n: nat, text: string)
    requires Trie(edges, word, parent) && n < |word| && Descends(word, fail)
    ensures TextLinks(edges, word, parent, fail, n, text) <= |text| + |word[n]|
    decreases |text|
  {
    if text != [] {
      NextBound(edges, word, parent, fail, n, text[0]);
      TextLinksBound(edges, word, parent, fail, Next(edges, word, fail, n, text[0]), text[1..]);
    }
  }

  // ---- Outputs ------------------------------------------------------------------------------

  /** The outputs of node n before merging: its own phrase, if it ends one. */
  ghost predicate OwnOutput(word: seq<string>, outputs: seq<seq<string>>, phrases: set<string>, n: nat)
    requires n < |word| == |outputs|
  {
    outputs[n] == if word[n] in phrases then [word[n]] else []
  }

  /** The outputs of node n after merging: all the phrases that end its word. */
  ghost predicate AllOutputs(word: seq<string>, outputs: seq<seq<string>>, phrases: set<string>, n: nat)
    requires n < |word| == |outputs|
  {
    forall p :: p in outputs[n] <==> p in phrases && Suffix(p, word[n])
  }

  ghost predicate AllKnown(word: seq<string>, phrases: set<string>) {
    forall p :: p in phrases ==> p in word
  }

  /** Node n is finished: its failure link is the longest proper suffix in the trie, its outputs are merged. */
  ghost predicate Linked(word: seq<string>, fail: seq<nat>, outputs: seq<seq<string>>, phrases: set<string>, n: nat)
    requires n < |word| == |outputs| == |fail|
  {
    && (if word[n] == [] then fail[n] == 0 else LongestIn(word, word[n][1..], fail[n]))
    && AllOutputs(word, outputs, phrases, n)
  }

  /** Nodes in `reached` are finished, the others hold their own output only. */
  ghost predicate LinkedOn(word: seq<string>, fail: seq<nat>, outputs: seq<seq<string>>, phrases: set<string>, reached: set<nat>)
    requires |word| == |outputs| == |fail|
  {
    forall n {:trigger Linked(word, fail, outputs, phrases, n)} {:trigger OwnOutput(word, outputs, phrases, n)} ::
      0 <= n < |word| ==>
        if n in reached then Linked(word, fail, outputs, phrases, n) else OwnOutput(word, outputs, phrases, n)
  }

  /** Writing the link and the merged outputs of one node finishes that node and no other. */
  lemma LinkOne(word: seq<string>, fail: seq<nat>, outputs: seq<seq<string>>, phrases: set<string>, done: set<nat>,
                child: nat, target: nat)
    requires |word| == |outputs| == |fail| && LinkedOn(word, fail, outputs, phrases, done) && AllKnown(word, phrases)
    requires child < |word| && child !in done && word[child] != [] && target in done
    requires LongestIn(word, word[child][1..], target)
    ensures LinkedOn(word, fail[child := target], outputs[child := outputs[child] + outputs[target]], phrases, done + {child})
  {
    assert Linked(word, fail, outputs, phrases, target) && OwnOutput(word, outputs, phrases, child);
    MergeOutputs(word, outputs, phrases, child, target);
    var fail', outputs' := fail[child := target], outputs[child := outputs[child] + outputs[target]];
    forall n | 0 <= n < |word|
      ensures if n in done + {child} then Linked(word, fail', outputs', phrases, n) else OwnOutput(word, outputs', phrases, n)
    {
      if n == child {
        assert AllOutputs(word, outputs', phrases, n);
      } else if n in done {
        assert Linked(word, fail, outputs, phrases, n);
      } else {
        assert OwnOutput(word, outputs, phrases, n);
      }
    }
  }

  /** Following a node's edges lists its children, each once. */
  lemma ChildrenListed(edges: Edges, word: seq<string>, parent: seq<nat>, node: nat, chars: seq<char>, children: seq<nat>)
    requires Trie(edges, word, parent) && node < |word| && |children| == |chars|
    requires forall c :: c in chars <==> c in edges[node]
    requires forall i, j :: 0 <= i < j < |chars| ==> chars[i] != chars[j]
    requires forall i :: 0 <= i < |chars| ==> children[i] == edges[node][chars[i]]
    ensures forall n :: n in children <==> 0 < n < |word| && parent[n] == node
    ensures forall i, j :: 0 <= i < j < |children| ==> children[i] != children[j]
    ensures forall i :: 0 <= i < |children| ==> children[i] < |word| && word[children[i]] == word[node] + [chars[i]]
  {
    forall i | 0 <= i < |children|
      ensures 0 < children[i] < |word| && parent[children[i]] == node && word[children[i]] == word[node] + [chars[i]]
    {
      assert Edge(edges, word, parent, node, chars[i]);
    }
    forall n | 0 < n < |word| && parent[n] == node
      ensures n in children
    {
      HangsWord(edges, word, parent, n);
      var i :| 0 <= i < |chars| && chars[i] == Last(word[n]);
      assert children[i] == n;
    }
    forall i, j | 0 <= i < j < |children|
      ensures children[i] != children[j]
    {
      assert children[i] in children && children[j] in children;
      assert Last(word[children[i]]) == chars[i] && Last(word[children[j]]) == chars[j];
    }
  }

  lemma MergeOutputs(word: seq<string>, outputs: seq<seq<string>>, phrases: set<string>, n: nat, f: nat)
    requires n < |word| == |outputs| && word[n] != []
    requires LongestIn(word, word[n][1..], f) && AllKnown(word, phrases)
    requires OwnOutput(word, outputs, phrases, n) && AllOutputs(word, outputs, phrases, f)
    ensures forall p :: p in outputs[n] + outputs[f] <==> p in phrases && Suffix(p, word[n])
  {
    var w := word[n];
    SuffixOfTail(word[f], w);
    forall p
      ensures p in outputs[n] + outputs[f] <==> p in phrases && Suffix(p, w)
    {
      SuffixOfTail(p, w);
      if p in phrases && Suffix(p, w[1..]) {
        assert p in word;
        var m :| 0 <= m < |word| && word[m] == p;
        assert |word[m]| <= |word[f]|;
        SuffixesNest(p, word[f], w[1..]);
      }
      if p in outputs[f] {
        SuffixTransitive(p, word[f], w);
      }
      assert w[|w| - |w|..] == w;
    }
  }

  /** At the longest node of the text read so far, the outputs are exactly the phrases ending there. */
  lemma OutputsEndHere(word: seq<string>, outputs: seq<seq<string>>, phrases: set<string>, t: string, n: nat, p: string)
    requires |word| == |outputs| && LongestIn(word, t, n) && AllKnown(word, phrases) && AllOutputs(word, outputs, phrases, n)
    ensures p in outputs[n] <==> p in phrases && Suffix(p, t)
  {
    if p in phrases && Suffix(p, t) {
      assert p in word;
      var m :| 0 <= m < |word| && word[m] == p;
      SuffixesNest(p, word[n], t);
    }
    if p in outputs[n] {
      SuffixTransitive(p, word[n], t);
    }
  }

  lemma SuffixIsEnding(text: string, p: string, end: nat)
    requires end <= |text|
    ensures Suffix(p, text[..end]) <==> EndsAt(text, p, end)
  {
    if |p| <= end {
      assert text[..end][end - |p|..] == text[end - |p|..end];
    }
  }

  // ---- Breadth-first order ------------------------------------------------------------------

  /** The queue lists nodes by depth, and spans at most two neighbouring depths. */
  ghost predicate ByDepth(word: seq<string>, queue: seq<nat>) {
    && (forall i :: 0 <= i < |queue| ==> queue[i] < |word|)
    && (forall i, j :: 0 <= i <= j < |queue| ==> |word[queue[i]]| <= |word[queue[j]]| <= |word[queue[i]]| + 1)
  }

  /** A node has been reached (queued or finished) exactly when its parent has been expanded. */
  ghost predicate Frontier(word: seq<string>, parent: seq<nat>, reached: set<nat>, expanded: set<nat>, queue: seq<nat>) {
    && 0 in expanded && expanded <= reached
    && (forall i, j :: 0 <= i < j < |queue| ==> queue[i] != queue[j])
    && (forall n :: n in reached ==> n < |word|)
    && (forall n :: n in queue <==> n in reached && n !in expanded)
    && (forall n :: 0 < n < |word| && n < |parent| ==> (n in reached <==> parent[n] in expanded))
  }

  /** Breadth first: nothing at or above the depth of the queue's head is still unreached. */
  lemma {:induction false} ShallowReached(edges: Edges, word: seq<string>, parent: seq<nat>,
                         reached: set<nat>, expanded: set<nat>, queue: seq<nat>, depth: nat, n: nat)
    requires Trie(edges, word, parent) && Frontier(word, parent, reached, expanded, queue)
    requires forall q :: q in queue ==> q < |word| && depth <= |word[q]|
    requires n < |word| && n !in reached
    ensures depth < |word[n]|
    decreases n
  {
    assert n != 0;
    HangsWord(edges, word, parent, n);
    var p := parent[n];
    if p !in reached {
      ShallowReached(edges, word, parent, reached, expanded, queue, depth, p);
    } else {
      assert p in queue;
    }
  }

  lemma AllShallowReached(edges: Edges, word: seq<string>, parent: seq<nat>,
                          reached: set<nat>, expanded: set<nat>, queue: seq<nat>)
    requires Trie(edges, word, parent) && Frontier(word, parent, reached, expanded, queue)
    requires ByDepth(word, queue) && queue != []
    ensures queue[0] != 0 && queue[0] in reached && queue[0] !in expanded
    ensures forall n {:trigger n in reached} :: 0 <= n < |word| && |word[n]| <= |word[queue[0]]| ==> n in reached
  {
    assert queue[0] in queue;
    forall n {:trigger n in reached} | 0 <= n < |word| && |word[n]| <= |word[queue[0]]|
      ensures n in reached
    {
      if n !in reached {
        ShallowReached(edges, word, parent, reached, expanded, queue, |word[queue[0]]|, n);
      }
    }
  }

  lemma {:induction false} EmptyQueueReachesAll(edges: Edges, word: seq<string>, parent: seq<nat>,
                               reached: set<nat>, expanded: set<nat>, n: nat)
    requires Trie(edges, word, parent) && Frontier(word, parent, reached, expanded, [])
    requires n < |word|
    ensures n in reached
    decreases n
  {
    if n != 0 {
      HangsWord(edges, word, parent, n);
      EmptyQueueReachesAll(edges, word, parent, reached, expanded, parent[n]);
      assert parent[n] !in [];
    }
  }

  /** A new leaf under `node`. */
  function Attach(edges: Edges, node: nat, c: char): Edges
    requires node < |edges|
  {
    var leaf: nat := |edges|;
    var row: map<char, nat> := edges[node][c := leaf];
    edges[node := row] + [map[]]
  }

  lemma ShortWords(word: seq<string>, outputs: seq<seq<string>>, phrases: set<string>, n: nat)
    requires n < |word| == |outputs| && |word[n]| <= 1 && [] !in phrases
    requires OwnOutput(word, outputs, phrases, n) && word[0] == []
    ensures AllOutputs(word, outputs, phrases, n)
    ensures word[n] != [] ==> LongestIn(word, word[n][1..], 0)
  {
    forall p
      ensures p in outputs[n] <==> p in phrases && Suffix(p, word[n])
    {
      if p in phrases && Suffix(p, word[n]) {
        assert word[n][|word[n]| - |p|..] == word[n];
      }
      assert word[n][|word[n]| - |word[n]|..] == word[n];
    }
  }

  lemma {:induction false} NodesBounded(s: set<nat>, n: nat)
    requires forall x :: x in s ==> x < n
    ensures |s| <= n
  {
    if n == 0 {
      assert s == {};
    } else {
      NodesBounded(s - {n - 1}, n - 1);
    }
  }

  lemma PrefixGrows(s: seq<nat>, i: nat)
    requires i < |s| && forall j, k :: 0 <= j < k < |s| ==> s[j] != s[k]
    ensures s[i] !in s[..i]
    ensures forall n :: n in s[..i + 1] <==> n in s[..i] || n == s[i]
  {
  }

  /** Popping the head and appending its children keeps the breadth-first order. */
  lemma Expand(edges: Edges, word: seq<string>, parent: seq<nat>, reached: set<nat>, expanded: set<nat>,
               queue: seq<nat>, children: seq<nat>)
    requires Trie(edges, word, parent) && Frontier(word, parent, reached, expanded, queue) && ByDepth(word, queue)
    requires queue != []
    requires forall n :: n in children <==> 0 < n < |word| && parent[n] == queue[0]
    requires forall i, j :: 0 <= i < j < |children| ==> children[i] != children[j]
    ensures Frontier(word, parent, reached + (set n | n in children), expanded + {queue[0]}, queue[1..] + children)
    ensures ByDepth(word, queue[1..] + children)
    ensures queue[0] !in expanded
  {
    var node := queue[0];
    assert node in queue;
    forall n | n in children
      ensures n !in reached && |word[n]| == |word[node]| + 1
    {
      HangsWord(edges, word, parent, n);
    }
    var queue' := queue[1..] + children;
    assert forall i :: 0 <= i < |queue'| ==> queue'[i] == if i < |queue| - 1 then queue[i + 1] else children[i - (|queue| - 1)];
    assert forall i :: 0 <= i < |children| ==> children[i] in children;
    assert forall n :: n in queue' <==> (n in queue && n != node) || n in children by {
      assert queue == [node] + queue[1..];
    }
  }

  /** The items of a node's edge table, in some order. */
  method Items(m: map<char, nat>) returns (chars: seq<char>, children: seq<nat>)
    ensures forall c :: c in chars <==> c in m
    ensures forall i, j :: 0 <= i < j < |chars| ==> chars[i] != chars[j]
    ensures |children| == |chars| && forall i :: 0 <= i < |chars| ==> children[i] == m[chars[i]]
  {
    chars, children := [], [];
    var rest := m.Keys;
    while rest != {}
      invariant forall c :: c in m <==> c in chars || c in rest
      invariant forall c :: c in chars ==> c !in rest
      invariant forall i, j :: 0 <= i < j < |chars| ==> chars[i] != chars[j]
      invariant |children| == |chars| && forall i :: 0 <= i < |chars| ==> chars[i] in m && children[i] == m[chars[i]]
    {
      var c :| c in rest;
      chars, children := chars + [c], children + [m[c]];
      rest := rest - {c};
    }
  }

  // ---- The matcher object -------------------------------------------------------------------

  class CustomTriggerMatcher {
    const isWord: char -> bool
    var edges: Edges
    var fail: seq<nat>
    var outputs: seq<seq<string>>
    var version: Option<nat>
    var loaded: bool
    ghost var word: seq<string>
    ghost var parent: seq<nat>
    ghost var phrases: set<string>

    constructor (isWord: char -> bool)
      ensures this.isWord == isWord && !loaded && Automaton() && phrases == {}
    {
      this.isWord := isWord;
      edges, fail, outputs := [map[]], [0], [[]];
      version, loaded := None, false;
      word, parent, phrases := [[]], [0], {};
    }

    ghost predicate Shape()
      reads this
    {
      && Trie(edges, word, parent) && |fail| == |outputs| == |word|
      && AllKnown(word, phrases) && [] !in phrases
    }

    /** The trie holds `phrases`, no failure link is set and no output is merged yet. */
    ghost predicate Unlinked()
      reads this
    {
      && Shape()
      && (forall n :: 0 <= n < |word| ==> fail[n] == 0 && OwnOutput(word, outputs, phrases, n))
    }

    /** The finished automaton for `phrases`. */
    ghost predicate Automaton()
      reads this
    {
      && Shape()
      && (forall n :: 0 <= n < |word| ==> Linked(word, fail, outputs, phrases, n))
    }

    /** The inner loop of the trie phase: walk one phrase, adding the nodes it lacks. */
    method AddPhrase(phrase: string)
      requires Unlinked() && phrase != [] && phrase !in phrases
      modifies this`edges, this`fail, this`outputs, this`word, this`parent, this`phrases
      ensures Unlinked() && phrases == old(phrases) + {phrase}
    {
      var node: nat := 0;
      for i := 0 to |phrase|
        invariant Unlinked() && phrases == old(phrases)
        invariant node < |word| && word[node] == phrase[..i]
      {
        var letter := phrase[i];
        assert phrase[..i + 1] == phrase[..i] + [letter];
        if letter in edges[node] {
          assert Edge(edges, word, parent, node, letter);
          node := edges[node][letter];
        } else {
          node := AddNode(node, letter);
        }
      }
      assert phrase[..|phrase|] == phrase;
      ghost var outputs0, phrases0 := outputs, phrases;
      outputs := outputs[node := outputs[node] + [phrase]];
      phrases := phrases + {phrase};
      forall n | 0 <= n < |word|
        ensures OwnOutput(word, outputs, phrases, n)
      {
        assert OwnOutput(word, outputs0, phrases0, n);
      }
      assert phrase in word;
    }

    method AddNode(node: nat, letter: char) returns (child: nat)
      requires Unlinked() && node < |word| && letter !in edges[node]
      modifies this`edges, this`fail, this`outputs, this`word, this`parent
      ensures Unlinked() && child < |word| && word[child] == old(word[node]) + [letter]
    {
      ghost var w := word[node] + [letter];
      assert w !in word by {
        if w in word {
          var m :| 0 <= m < |word| && word[m] == w;
          WordHasEdge(edges, word, parent, node, letter, m);
          assert false;
        }
      }
      ghost var edges0, word0, parent0 := edges, word, parent;
      child := |edges|;
      edges := Attach(edges, node, letter);
      fail := fail + [0];
      outputs := outputs + [[]];
      word := word + [w];
      parent := parent + [node];
      GrownTrie(edges0, word0, parent0, node, letter);
      assert AllKnown(word, phrases) by {
        forall p | p in phrases ensures p in word { assert p in word0; }
      }
      forall n | 0 <= n < |word|
        ensures fail[n] == 0 && OwnOutput(word, outputs, phrases, n)
      {
        if n < |word0| {
          assert OwnOutput(word0, old(outputs), phrases, n);
        } else {
          assert w !in phrases;
        }
      }
    }

    static lemma GrownTrie(edges: Edges, word: seq<string>, parent: seq<nat>, node: nat, letter: char)
      requires Trie(edges, word, parent) && node < |word| && letter !in edges[node]
      requires word[node] + [letter] !in word
      ensures Trie(Attach(edges, node, letter), word + [word[node] + [letter]], parent + [node])
    {
      var w := word[node] + [letter];
      var edges', word', parent' := Attach(edges, node, letter), word + [w], parent + [node];
      forall n, c | 0 <= n < |edges'| && c in edges'[n]
        ensures Edge(edges', word', parent', n, c)
      {
        if n == node && c == letter {
        } else {
          assert Edge(edges, word, parent, n, c);
        }
      }
      forall n | 0 < n < |word'|
        ensures Hangs(edges', word', parent', n)
      {
        if n < |word| {
          assert Hangs(edges, word, parent, n);
          assert parent'[n] == parent[n];
        } else {
          assert Last(w) == letter;
        }
      }
    }

    method Build(wanted: set<string>)
      requires [] !in wanted
      modifies this`edges, this`fail, this`outputs, this`word, this`parent, this`phrases
      ensures Automaton() && phrases == wanted
    {
      edges, fail, outputs := [map[]], [0], [[]];
      word, parent, phrases := [[]], [0], {};
      var ordered := SortPhrases(wanted);
      for i := 0 to |ordered|
        invariant Unlinked()
        invariant forall p :: p in phrases <==> p in ordered[..i]
      {
        assert forall j :: 0 <= j < i ==> ordered[j] != ordered[i];
        AddPhrase(ordered[i]);
        assert ordered[..i + 1] == ordered[..i] + [ordered[i]];
      }
      assert ordered[..|ordered|] == ordered;
      LinkFailures();
    }

    /** One expanded node: every child gets its failure link and merged outputs. */
    method LinkChildren(node: nat, ghost reached: set<nat>, ghost expanded: set<nat>, ghost queue: seq<nat>)
      returns (children: seq<nat>)
      requires Shape() && LinkedOn(word, fail, outputs, phrases, reached) && ByDepth(word, queue)
      requires Frontier(word, parent, reached, expanded, queue) && queue != [] && queue[0] == node
      modifies this`fail, this`outputs
      ensures Shape() && LinkedOn(word, fail, outputs, phrases, reached + (set n | n in children))
      ensures forall n :: n in children <==> 0 < n < |word| && parent[n] == node
      ensures forall i, j :: 0 <= i < j < |children| ==> children[i] != children[j]
    {
      AllShallowReached(edges, word, parent, reached, expanded, queue);
      var chars;
      chars, children := Items(edges[node]);
      ChildrenListed(edges, word, parent, node, chars, children);
      ghost var done := reached;
      for i := 0 to |children|
        invariant Shape() && LinkedOn(word, fail, outputs, phrases, done)
        invariant forall n :: n in done <==> n in reached || n in children[..i]
      {
        PrefixGrows(children, i);
        assert children[i] in children && children[i] !in reached;
        LinkChild(node, chars[i], done);
        done := done + {children[i]};
      }
      assert children[..|children|] == children;
      assert done == reached + (set n | n in children);
    }

    /** Give one child its failure link and merge the outputs that link contributes. */
    method LinkChild(node: nat, letter: char, ghost done: set<nat>)
      requires Shape() && LinkedOn(word, fail, outputs, phrases, done) && 0 < node < |word| && letter in edges[node]
      requires edges[node][letter] !in done
      requires forall n {:trigger n in done} :: 0 <= n < |word| && |word[n]| <= |word[node]| ==> n in done
      modifies this`fail, this`outputs
      ensures Shape() && LinkedOn(word, fail, outputs, phrases, done + {edges[node][letter]})
    {
      var child := edges[node][letter];
      assert Edge(edges, word, parent, node, letter);
      var target := FindFallback(node, letter, done);
      assert word[child][1..] == word[node][1..] + [letter];
      LinkOne(word, fail, outputs, phrases, done, child, target);
      fail, outputs := fail[child := target], outputs[child := outputs[child] + outputs[target]];
    }

    /** Follow failure links from `node` until one can be extended by `letter`, then follow that edge. */
    method FindFallback(node: nat, letter: char, ghost done: set<nat>) returns (target: nat)
      requires Shape() && LinkedOn(word, fail, outputs, phrases, done) && 0 < node < |word|
      requires forall n {:trigger n in done} :: 0 <= n < |word| && |word[n]| <= |word[node]| ==> n in done
      ensures word[node] != [] && LongestIn(word, word[node][1..] + [letter], target) && target in done
    {
      HangsWord(edges, word, parent, node);
      ghost var tail := word[node][1..];
      assert node in done && Linked(word, fail, outputs, phrases, node);
      var fallback := fail[node];
      LongestReaches(edges, word, tail, letter, fallback);
      while fallback != 0 && letter !in edges[fallback]
        invariant Reaches(edges, word, tail, letter, fallback)
        decreases |word[fallback]|
      {
        HangsWord(edges, word, parent, fallback);
        assert fallback in done && Linked(word, fail, outputs, phrases, fallback);
        FallBack(edges, word, parent, tail, letter, fallback, fail[fallback]);
        fallback := fail[fallback];
      }
      Land(edges, word, parent, tail, letter, fallback);
      target := Goto(edges, fallback, letter);
      assert 0 in done;
    }

    lemma RootChildren(first: seq<char>, queue: seq<nat>)
      requires Unlinked() && |queue| == |first|
      requires forall c :: c in first <==> c in edges[0]
      requires forall i, j :: 0 <= i < j < |first| ==> first[i] != first[j]
      requires forall i :: 0 <= i < |first| ==> queue[i] == edges[0][first[i]]
      ensures LinkedOn(word, fail, outputs, phrases, {0} + (set n | n in queue)) && ByDepth(word, queue)
      ensures Frontier(word, parent, {0} + (set n | n in queue), {0}, queue)
    {
      ChildrenListed(edges, word, parent, 0, first, queue);
      forall n | 0 <= n < |word| && (n == 0 || n in queue)
        ensures Linked(word, fail, outputs, phrases, n)
      {
        assert OwnOutput(word, outputs, phrases, n);
        ShortWords(word, outputs, phrases, n);
      }
    }

    /** The breadth-first phase. */
    method LinkFailures()
      requires Unlinked()
      modifies this`fail, this`outputs
      ensures Automaton()
    {
      var first, queue := Items(edges[0]);
      ghost var reached := {0} + (set n | n in queue);
      ghost var expanded := {0};
      RootChildren(first, queue);
      while queue != []
        invariant Shape() && LinkedOn(word, fail, outputs, phrases, reached) && ByDepth(word, queue)
        invariant Frontier(word, parent, reached, expanded, queue)
        invariant |expanded| <= |word|
        decreases |word| - |expanded|
      {
        ghost var before := queue;
        var node := queue[0];
        queue := queue[1..];
        var children := LinkChildren(node, reached, expanded, before);
        Expand(edges, word, parent, reached, expanded, before, children);
        queue := queue + children;
        reached, expanded := reached + (set n | n in children), expanded + {node};
        NodesBounded(expanded, |word|);
      }
      forall n | 0 <= n < |word|
        ensures Linked(word, fail, outputs, phrases, n)
      {
        EmptyQueueReachesAll(edges, word, parent, reached, expanded, n);
      }
    }

    /** Depth of a node: what a scan can still spend on failure links. */
    ghost function Depth(n: nat): nat
      requires n < |word|
      reads this
    {
      |word[n]|
    }

    /** Scan the text. `hops` counts the failure links followed over the whole text. */
    method Match(text: string) returns (matches: seq<string>, ghost hops: nat)
      requires Automaton()
      ensures Ascending(matches)
      ensures forall p :: p in matches <==> p in NaiveMatches(isWord, phrases, text)
      ensures Descends(word, fail) && hops == TextLinks(edges, word, parent, fail, 0, text) <= |text|
    {
      LinksDescend();
      TextLinksBound(edges, word, parent, fail, 0, text);
      hide PatternAt, EndsAt, LongestIn, FoundBy;
      var found: set<string> := {};
      var node: nat := 0;
      hops := 0;
      NothingYet(text);
      for end := 0 to |text|
        invariant node < |word| && LongestIn(word, text[..end], node)
        invariant forall p :: p in found <==> p in phrases && FoundBy(isWord, text, p, end)
        invariant hops + TextLinks(edges, word, parent, fail, node, text[end..]) == TextLinks(edges, word, parent, fail, 0, text)
      {
        ghost var h;
        assert text[end..][0] == text[end] && text[end..][1..] == text[end + 1..];
        node, h := Step(text[..end], node, text[end]);
        hops := hops + h;
        OutputsAt(text, end, end + 1, node);
        var hits := Report(text, end, outputs[node]);
        FoundNext(isWord, text, end);
        found := found + hits;
      }
      FoundAtEnd(isWord, text);
      matches := SortPhrases(found);
    }

    lemma LinksDescend()
      requires Automaton()
      ensures Descends(word, fail)
    {
      forall n | 0 < n < |fail| ensures fail[n] < |fail| && |word[fail[n]]| < |word[n]| {
        HangsWord(edges, word, parent, n);
        assert Linked(word, fail, outputs, phrases, n);
      }
    }

    lemma NothingYet(text: string)
      requires Automaton()
      ensures 0 < |word| && LongestIn(word, text[..0], 0) && Depth(0) == 0
      ensures forall p :: p in phrases ==> !FoundBy(isWord, text, p, 0)
    {
    }

    /** The outputs of the node reached are exactly the phrases that end here. */
    lemma OutputsAt(text: string, end: nat, after: nat, node: nat)
      requires Automaton() && end < |text| && after == end + 1 && LongestIn(word, text[..end] + [text[end]], node)
      ensures node < |word| && LongestIn(word, text[..after], node)
      ensures forall p :: p in outputs[node] <==> p in phrases && EndsAt(text, p, after)
      ensures forall p :: PatternAt(isWord, text, p, after) ==> EndsAt(text, p, after)
    {
      assert text[..end] + [text[end]] == text[..end + 1];
      forall p
        ensures p in outputs[node] <==> p in phrases && EndsAt(text, p, after)
      {
        assert Linked(word, fail, outputs, phrases, node);
        OutputsEndHere(word, outputs, phrases, text[..after], node, p);
        SuffixIsEnding(text, p, after);
      }
    }

    /** Follow failure links until the node can be extended by `letter`, then follow the edge. */
    method Step(ghost read: string, start: nat, letter: char) returns (node: nat, ghost hops: nat)
      requires Automaton() && LongestIn(word, read, start)
      ensures LongestIn(word, read + [letter], node)
      ensures Descends(word, fail) && node == Next(edges, word, fail, start, letter) && hops == Links(edges, word, fail, start, letter)
    {
      LinksDescend();
      node, hops := start, 0;
      LongestReaches(edges, word, read, letter, node);
      while node != 0 && letter !in edges[node]
        invariant Reaches(edges, word, read, letter, node)
        invariant Next(edges, word, fail, node, letter) == Next(edges, word, fail, start, letter)
        invariant hops + Links(edges, word, fail, node, letter) == Links(edges, word, fail, start, letter)
        decreases Depth(node)
      {
        HangsWord(edges, word, parent, node);
        assert Linked(word, fail, outputs, phrases, node);
        FallBack(edges, word, parent, read, letter, node, fail[node]);
        node, hops := fail[node], hops + 1;
      }
      Land(edges, word, parent, read, letter, node);
      node := Goto(edges, node, letter);
    }

    /** Answer from the cached automaton, or rebuild it first when the version read from Redis differs.
        `redisPhrases` is what SMEMBERS answers if it is asked. */
    method GetMatches(text: string, redisVersion: Option<nat>, redisPhrases: set<string>) returns (r: Option<seq<string>>)
      requires Automaton() && [] !in redisPhrases
      modifies this
      ensures Automaton()
      ensures r.None? <==> (!old(loaded) || redisVersion != old(version)) && |redisPhrases| > 5000
      ensures r.None? ==> unchanged(this)
      ensures r.Some? ==> loaded && version == redisVersion
      ensures r.Some? ==> phrases == if old(loaded) && redisVersion == old(version) then old(phrases) else redisPhrases
      ensures r.Some? ==> Ascending(r.value) && forall p :: p in r.value <==> p in NaiveMatches(isWord, phrases, text)
    {
      if !loaded || redisVersion != version {
        if |redisPhrases| > MAX_GLOBAL_CUSTOM_TRIGGERS {
          return None;
        }
        Build(redisPhrases);
        version := redisVersion;
        loaded := true;
      }
      ghost var hops;
      var matches;
      matches, hops := Match(text);
      r := Some(matches);
    }

    /** No word character before the phrase that ends before `after`, at most three behind it. */
    method AtBoundary(text: string, phrase: string, after: nat) returns (ok: bool)
      requires EndsAt(text, phrase, after)
      ensures ok <==> PatternAt(isWord, text, phrase, after)
    {
      var start := after - |phrase|;
      if start > 0 && isWord(text[start - 1]) { return false; }
      var suffixEnd := after;
      while suffixEnd < |text| && isWord(text[suffixEnd]) && suffixEnd <= after + 2
        invariant after <= suffixEnd <= |text| && suffixEnd <= after + 3
        invariant forall j :: after <= j < suffixEnd ==> isWord(text[j])
      {
        suffixEnd := suffixEnd + 1;
      }
      SuffixDecided(isWord, text, after, suffixEnd);
      ok := !(suffixEnd < |text| && isWord(text[suffixEnd]));
    }

    /** The outputs of one text position that pass the boundary and suffix rules. */
    method Report(text: string, end: nat, ending: seq<string>) returns (hits: set<string>)
      requires end < |text| && forall p :: p in ending ==> EndsAt(text, p, end + 1)
      ensures forall p :: p in hits <==> p in ending && PatternAt(isWord, text, p, end + 1)
    {
      hide PatternAt, EndsAt;
      hits := {};
      for i := 0 to |ending|
        invariant forall p :: p in hits <==> p in ending[..i] && PatternAt(isWord, text, p, end + 1)
      {
        var phrase := ending[i];
        assert ending[..i + 1] == ending[..i] + [phrase];
        assert phrase in ending;
        var ok := AtBoundary(text, phrase, end + 1);
        if !ok {
          continue;
        }
        hits := hits + {phrase};
      }
      assert ending[..|ending|] == ending;
    }
  }

  /** A scan over at most three word characters decides whether the pattern's tail fits. */
  lemma SuffixDecided(isWord: char -> bool, text: string, after: nat, suffixEnd: nat)
    requires after <= suffixEnd <= |text| && suffixEnd <= after + 3
    requires forall j :: after <= j < suffixEnd ==> isWord(text[j])
    requires suffixEnd < |text| && isWord(text[suffixEnd]) ==> suffixEnd == after + 3
    ensures (exists k: nat :: PatternSuffix(isWord, text, after, k)) <==> !(suffixEnd < |text| && isWord(text[suffixEnd]))
  {
    if !(suffixEnd < |text| && isWord(text[suffixEnd])) {
      assert PatternSuffix(isWord, text, after, suffixEnd - after);
    }
  }
}
