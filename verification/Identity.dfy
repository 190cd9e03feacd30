/** Printed integers and the identities joined from them. */
module Identity {
  import opened Options

  function Digit(d: nat): char
    requires d < 10
  {
    "0123456789"[d]
  }

  function Digits(n: nat): string {
    if n < 10 then [Digit(n)] else Digits(n / 10) + [Digit(n % 10)]
  }

  /** str(n) */
  function Str(n: int): string {
    if n < 0 then "-" + Digits(-n) else Digits(n)
  }

  /** The printed identity of an event, "source:message:recipient". */
  function EventId(source: int, message: int, recipient: int): string {
    Str(source) + ":" + Str(message) + ":" + Str(recipient)
  }

  function StageId(source: int, message: int, recipient: int, step: int): string {
    EventId(source, message, recipient) + ":" + Str(step)
  }

  predicate IsDigit(c: char) {
    '0' <= c <= '9'
  }

  function DigitValue(c: char): nat
    requires IsDigit(c)
  {
    c as nat - '0' as nat
  }

  // ---- int(text) -------------------------------------------------------------------------------------------

  /** Digits, with single underscores between them, read from the left. */
  function Magnitude(s: string): Option<nat> {
    if s == [] || !IsDigit(s[|s| - 1]) then None
    else if |s| == 1 then Some(DigitValue(s[0]))
    else
      var before := if s[|s| - 2] == '_' then s[..|s| - 2] else s[..|s| - 1];
      var high := Magnitude(before);
      if high.Some? then Some(10 * high.value + DigitValue(s[|s| - 1])) else None
  }

  predicate IsSpace(c: char) {
    c == ' ' || c == '\t' || c == '\n' || c == '\r'
  }

  function Stripped(s: string): string {
    if s == [] then s
    else if IsSpace(s[0]) then Stripped(s[1..])
    else if IsSpace(s[|s| - 1]) then Stripped(s[..|s| - 1])
    else s
  }

  /** int(text): surrounding space, a sign, leading zeros and underscores are all let through. */
  function ParseInt(s: string): Option<int> {
    var t := Stripped(s);
    if t == [] then None
    else
      var signed := t[0] == '-' || t[0] == '+';
      var m := Magnitude(if signed then t[1..] else t);
      if m.None? then None
      else
        var value: int := if t[0] == '-' then 0 - m.value else m.value;
        Some(value)
  }

  lemma {:induction false} DigitsOnly(n: nat)
    ensures |Digits(n)| >= 1 && forall c :: c in Digits(n) ==> IsDigit(c)
  {
    if n >= 10 {
      DigitsOnly(n / 10);
    }
  }

  lemma MagnitudeStep(high: string, c: char)
    requires high != [] && high[|high| - 1] != '_' && IsDigit(c) && Magnitude(high).Some?
    ensures Magnitude(high + [c]) == Some(10 * Magnitude(high).value + DigitValue(c))
  {
    var s := high + [c];
    assert s[..|s| - 1] == high && s[|s| - 2] == high[|high| - 1];
  }

  lemma {:induction false} MagnitudeInverts(n: nat)
    ensures Magnitude(Digits(n)) == Some(n)
  {
    if n >= 10 {
      var high := Digits(n / 10);
      MagnitudeInverts(n / 10);
      DigitsOnly(n / 10);
      assert high[|high| - 1] in high;
      MagnitudeStep(high, Digit(n % 10));
    }
  }

  lemma ParseInverts(n: int)
    ensures ParseInt(Str(n)) == Some(n)
  {
    var s := Str(n);
    var m: nat := if n < 0 then -n else n;
    DigitsOnly(m);
    MagnitudeInverts(m);
    assert n >= 0 ==> s[0] in Digits(m);
    assert s[|s| - 1] == Digits(m)[|Digits(m)| - 1] && s[|s| - 1] in Digits(m);
    assert Stripped(s) == s;
    if n < 0 {
      assert s[1..] == Digits(m);
    }
  }

  lemma StrInjective(a: int, b: int)
    requires Str(a) == Str(b)
    ensures a == b
  {
    ParseInverts(a);
    ParseInverts(b);
  }

  // ---- Joined identities ---------------------------------------------------------------------------------------

  predicate NoColon(s: string) {
    forall i :: 0 <= i < |s| ==> s[i] != ':'
  }

  lemma StrNoColon(n: int)
    ensures NoColon(Str(n)) && Str(n) != []
  {
    DigitsOnly(if n < 0 then -n else n);
    var s := Str(n);
    forall i | 0 <= i < |s| ensures s[i] != ':' {
      if s[i] != '-' {
        assert s[i] in Digits(if n < 0 then -n else n);
      }
    }
  }

  /** A colon-free part and what follows its colon can be told apart. */
  lemma SplitUnique(a: string, x: string, b: string, y: string)
    requires NoColon(a) && NoColon(b) && a + ":" + x == b + ":" + y
    ensures a == b && x == y
  {
    var s := a + ":" + x;
    assert s[|a|] == ':' && forall i :: 0 <= i < |a| ==> s[i] == a[i];
    assert s[|b|] == ':' && forall i :: 0 <= i < |b| ==> s[i] == b[i];
    assert a == s[..|a|] && b == s[..|b|];
    assert x == s[|a| + 1..] && y == s[|b| + 1..];
  }

  lemma Regroup(a: string, b: string, c: string)
    ensures a + ":" + b + ":" + c == a + ":" + (b + ":" + c)
  {
  }

  /** Two events with the same printed identity are the same event. */
  lemma EventIdInjective(a: int, b: int, c: int, a': int, b': int, c': int)
    requires EventId(a, b, c) == EventId(a', b', c')
    ensures a == a' && b == b' && c == c'
  {
    StrNoColon(a); StrNoColon(a'); StrNoColon(b); StrNoColon(b');
    Regroup(Str(a), Str(b), Str(c));
    Regroup(Str(a'), Str(b'), Str(c'));
    SplitUnique(Str(a), Str(b) + ":" + Str(c), Str(a'), Str(b') + ":" + Str(c'));
    SplitUnique(Str(b), Str(c), Str(b'), Str(c'));
    StrInjective(a, a'); StrInjective(b, b'); StrInjective(c, c');
  }

  lemma StageParts(a: int, b: int, c: int, step: int)
    ensures StageId(a, b, c, step) == Str(a) + ":" + (Str(b) + ":" + (Str(c) + ":" + Str(step)))
  {
  }

  /** The same for the key of a stage. */
  lemma StageIdInjective(a: int, b: int, c: int, step: int, a': int, b': int, c': int, step': int)
    requires StageId(a, b, c, step) == StageId(a', b', c', step')
    ensures a == a' && b == b' && c == c' && step == step'
  {
    StageParts(a, b, c, step);
    StageParts(a', b', c', step');
    StrNoColon(a); StrNoColon(a'); StrNoColon(b); StrNoColon(b'); StrNoColon(c); StrNoColon(c');
    SplitUnique(Str(a), Str(b) + ":" + (Str(c) + ":" + Str(step)), Str(a'), Str(b') + ":" + (Str(c') + ":" + Str(step')));
    SplitUnique(Str(b), Str(c) + ":" + Str(step), Str(b'), Str(c') + ":" + Str(step'));
    SplitUnique(Str(c), Str(step), Str(c'), Str(step'));
    StrInjective(a, a'); StrInjective(b, b'); StrInjective(c, c'); StrInjective(step, step');
  }

  // ---- Deletion's key pattern ------------------------------------------------------------------------------

  function Colons(s: string): nat {
    if s == [] then 0 else (if s[0] == ':' then 1 else 0) + Colons(s[1..])
  }

  lemma {:induction false} ColonsAdd(s: string, t: string)
    ensures Colons(s + t) == Colons(s) + Colons(t)
  {
    if s == [] {
      assert s + t == t;
    } else {
      ColonsAdd(s[1..], t);
      assert (s + t)[1..] == s[1..] + t;
    }
  }

  lemma {:induction false} ColonsZero(s: string)
    ensures Colons(s) == 0 <==> NoColon(s)
  {
    if s != [] {
      ColonsZero(s[1..]);
      assert NoColon(s) ==> NoColon(s[1..]);
      if NoColon(s[1..]) && s[0] != ':' {
        forall i | 0 <= i < |s| ensures s[i] != ':' {
          assert i > 0 ==> s[i] == s[1..][i - 1];
        }
      }
    }
  }

  /** `x`, `y` and `z` fill the stars of "*:*:user:*". */
  predicate FillsPattern(key: string, user: int, x: string, y: string, z: string) {
    key == x + ":" + (y + ":" + (Str(user) + ":" + z))
  }

  lemma ColonsOfStage(x: string, y: string, s: string, z: string)
    ensures Colons(x + ":" + (y + ":" + (s + ":" + z))) == Colons(x) + Colons(y) + Colons(s) + Colons(z) + 3
  {
    assert Colons(":") == 1 by {
      assert ":"[1..] == "";
    }
    ColonsAdd(x, ":"); ColonsAdd(x + ":", y + ":" + (s + ":" + z));
    ColonsAdd(y, ":"); ColonsAdd(y + ":", s + ":" + z);
    ColonsAdd(s, ":"); ColonsAdd(s + ":", z);
  }

  /** The stage keys that a deletion's scan matches are exactly the recipient's own, although a star may match
      colons too. */
  lemma StagePatternExact(a: int, b: int, c: int, step: int, user: int)
    ensures (exists x, y, z :: FillsPattern(StageId(a, b, c, step), user, x, y, z)) <==> c == user
  {
    StageParts(a, b, c, step);
    if c == user {
      assert FillsPattern(StageId(a, b, c, step), user, Str(a), Str(b), Str(step));
    }
    if x, y, z :| FillsPattern(StageId(a, b, c, step), user, x, y, z) {
      PatternRecipient(a, b, c, step, user, x, y, z);
    }
  }

  lemma PatternRecipient(a: int, b: int, c: int, step: int, user: int, x: string, y: string, z: string)
    requires FillsPattern(StageId(a, b, c, step), user, x, y, z)
    ensures c == user
  {
    StageParts(a, b, c, step);
    StrNoColon(a); StrNoColon(b); StrNoColon(c); StrNoColon(step); StrNoColon(user);
    ColonsZero(Str(a)); ColonsZero(Str(b)); ColonsZero(Str(c)); ColonsZero(Str(step)); ColonsZero(Str(user));
    ColonsOfStage(Str(a), Str(b), Str(c), Str(step));
    ColonsOfStage(x, y, Str(user), z);
    ColonsZero(x); ColonsZero(y);
    SplitUnique(x, y + ":" + (Str(user) + ":" + z), Str(a), Str(b) + ":" + (Str(c) + ":" + Str(step)));
    SplitUnique(y, Str(user) + ":" + z, Str(b), Str(c) + ":" + Str(step));
    SplitUnique(Str(user), z, Str(c), Str(step));
    StrInjective(c, user);
  }

  /** `x` and `y` fill the stars of "*:*:user". */
  predicate FillsEventPattern(key: string, user: int, x: string, y: string) {
    key == x + ":" + (y + ":" + Str(user))
  }

  /** The enqueue markers that the scan matches are exactly the recipient's own. */
  lemma EventPatternExact(a: int, b: int, c: int, user: int)
    ensures (exists x, y :: FillsEventPattern(EventId(a, b, c), user, x, y)) <==> c == user
  {
    Regroup(Str(a), Str(b), Str(c));
    if c == user {
      assert FillsEventPattern(EventId(a, b, c), user, Str(a), Str(b));
    }
    if x, y :| FillsEventPattern(EventId(a, b, c), user, x, y) {
      EventPatternRecipient(a, b, c, user, x, y);
    }
  }

  lemma ColonsOfEvent(x: string, y: string, s: string)
    ensures Colons(x + ":" + (y + ":" + s)) == Colons(x) + Colons(y) + Colons(s) + 2
  {
    assert Colons(":") == 1 by {
      assert ":"[1..] == "";
    }
    ColonsAdd(x, ":"); ColonsAdd(x + ":", y + ":" + s);
    ColonsAdd(y, ":"); ColonsAdd(y + ":", s);
  }

  lemma EventPatternRecipient(a: int, b: int, c: int, user: int, x: string, y: string)
    requires FillsEventPattern(EventId(a, b, c), user, x, y)
    ensures c == user
  {
    Regroup(Str(a), Str(b), Str(c));
    StrNoColon(a); StrNoColon(b); StrNoColon(c); StrNoColon(user);
    ColonsZero(Str(a)); ColonsZero(Str(b)); ColonsZero(Str(c)); ColonsZero(Str(user));
    ColonsOfEvent(Str(a), Str(b), Str(c));
    ColonsOfEvent(x, y, Str(user));
    ColonsZero(x); ColonsZero(y);
    SplitUnique(x, y + ":" + Str(user), Str(a), Str(b) + ":" + Str(c));
    SplitUnique(y, Str(user), Str(b), Str(c));
    StrInjective(c, user);
  }

  // ---- Lengths -----------------------------------------------------------------------------------------------

  function Pow10(k: nat): nat {
    if k == 0 then 1 else 10 * Pow10(k - 1)
  }

  lemma {:induction false} DigitsShort(n: nat, k: nat)
    requires n < Pow10(k) && k >= 1
    ensures |Digits(n)| <= k
  {
    if n >= 10 {
      assert k > 1 by {
        assert Pow10(1) == 10 * Pow10(0);
      }
      DigitsShort(n / 10, k - 1);
    }
  }

  const MAX_SAFE: int := 9007199254740991

  lemma StrShort(n: int)
    requires -MAX_SAFE <= n <= MAX_SAFE
    ensures |Str(n)| <= 17
  {
    assert Pow10(4) == 10000;
    assert Pow10(8) == 10000 * Pow10(4);
    assert Pow10(12) == 10000 * Pow10(8);
    assert Pow10(16) == 10000 * Pow10(12);
    DigitsShort(if n < 0 then -n else n, 16);
  }
}
