/** Strings as Python orders and slices them: code-point order for `sorted`, and suffixes. */
module Strings {

  /** Code-point lexicographic order, the order Python's `sorted` uses on strings. */
  predicate LexLe(a: string, b: string) {
    if a == [] then true
    else if b == [] then false
    else if a[0] == b[0] then LexLe(a[1..], b[1..])
    else a[0] < b[0]
  }

  lemma {:induction false} LexTotal(a: string, b: string)
    ensures LexLe(a, b) || LexLe(b, a)
  {
    if a != [] && b != [] && a[0] == b[0] {
      LexTotal(a[1..], b[1..]);
    }
  }

  lemma {:induction false} LexAntisymmetric(a: string, b: string)
    requires LexLe(a, b) && LexLe(b, a)
    ensures a == b
  {
    if a != [] && b != [] {
      LexAntisymmetric(a[1..], b[1..]);
      assert a == [a[0]] + a[1..] && b == [b[0]] + b[1..];
    }
  }

  lemma {:induction false} LexTransitive(a: string, b: string, c: string)
    requires LexLe(a, b) && LexLe(b, c)
    ensures LexLe(a, c)
  {
    if a != [] && b != [] && c != [] && a[0] == b[0] == c[0] {
      LexTransitive(a[1..], b[1..], c[1..]);
    }
  }

  lemma {:induction false} LeastExists(s: set<string>)
    requires s != {}
    ensures exists x :: x in s && forall y :: y in s ==> LexLe(x, y)
    decreases |s|
  {
    var x :| x in s;
    LexTotal(x, x);
    if s != {x} {
      var rest := s - {x};
      LeastExists(rest);
      var m :| m in rest && forall y :: y in rest ==> LexLe(m, y);
      LexTotal(x, m);
      var least := if LexLe(x, m) then x else m;
      forall y | y in s
        ensures LexLe(least, y)
      {
        if y != x && least == x {
          LexTransitive(x, m, y);
        }
      }
    }
  }

  /** Strictly ascending: sorted and free of duplicates. */
  predicate Ascending(s: seq<string>) {
    forall i, j :: 0 <= i < j < |s| ==> s[i] != s[j] && LexLe(s[i], s[j])
  }

  lemma TailMembers(s: seq<string>)
    requires Ascending(s) && s != []
    ensures forall p :: p in s[1..] <==> p in s && p != s[0]
  {
    forall p
      ensures p in s[1..] <==> p in s && p != s[0]
    {
      if p in s[1..] {
        var i :| 0 <= i < |s[1..]| && s[1..][i] == p;
        assert s[0] != s[i + 1];
      }
      assert s == [s[0]] + s[1..];
    }
  }

  /** A sorted list of distinct strings is determined by its members. */
  lemma {:induction false} AscendingUnique(s: seq<string>, t: seq<string>)
    requires Ascending(s) && Ascending(t)
    requires forall p :: p in s <==> p in t
    ensures s == t
    decreases |s|
  {
    if s == [] {
      assert forall i :: 0 <= i < |t| ==> t[i] !in s;
    } else {
      assert s[0] in t && t != [];
      assert t[0] in s;
      if s[0] != t[0] {
        LexAntisymmetric(s[0], t[0]);
      }
      TailMembers(s);
      TailMembers(t);
      AscendingUnique(s[1..], t[1..]);
      assert s == [s[0]] + s[1..] && t == [t[0]] + t[1..];
    }
  }

  /** Python's `sorted` on a set of strings. */
  method SortPhrases(phrases: set<string>) returns (r: seq<string>)
    ensures Ascending(r)
    ensures forall p :: p in r <==> p in phrases
  {
    r := [];
    var rest := phrases;
    while rest != {}
      invariant Ascending(r)
      invariant forall p :: p in phrases <==> p in r || p in rest
      invariant forall p, q :: p in r && q in rest ==> p != q && LexLe(p, q)
      decreases |rest|
    {
      LeastExists(rest);
      var x :| x in rest && forall y :: y in rest ==> LexLe(x, y);
      r := r + [x];
      rest := rest - {x};
    }
  }

  predicate Suffix(a: string, t: string) {
    |a| <= |t| && t[|t| - |a|..] == a
  }

  /** Of two suffixes of one text, the shorter is a suffix of the longer. */
  lemma SuffixesNest(a: string, b: string, t: string)
    requires Suffix(a, t) && Suffix(b, t) && |a| <= |b|
    ensures Suffix(a, b)
  {
  }

  lemma SuffixTransitive(a: string, b: string, t: string)
    requires Suffix(a, b) && Suffix(b, t)
    ensures Suffix(a, t)
  {
  }

  lemma SuffixExtend(a: string, t: string, c: char)
    requires Suffix(a, t)
    ensures Suffix(a + [c], t + [c])
  {
  }

  lemma SuffixShrink(a: string, c: char, t: string, d: char)
    requires Suffix(a + [c], t + [d])
    ensures c == d && Suffix(a, t)
  {
    var tail := (t + [d])[|t| - |a|..];
    assert tail == t[|t| - |a|..] + [d];
    assert tail == a + [c];
    assert tail[|a|] == c && tail[|a|] == d;
    assert tail[..|a|] == a && tail[..|a|] == t[|t| - |a|..];
  }

  /** A suffix of a non-empty word is the word itself or a suffix of its tail. */
  lemma SuffixOfTail(a: string, w: string)
    requires w != []
    ensures Suffix(a, w) <==> a == w || Suffix(a, w[1..])
  {
    if |a| <= |w[1..]| {
      assert w[1..][|w[1..]| - |a|..] == w[|w| - |a|..];
    } else if |a| == |w| {
      assert w[|w| - |a|..] == w;
    }
  }
}
