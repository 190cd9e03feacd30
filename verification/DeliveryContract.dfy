/** The consumer's contract for queued delivery payloads. */
module DeliveryContract {
  // A payload is its decoded JSON object; an ISO time stands for its instant in seconds. `word` and `alnum` are the
  // character classes of the pattern and of isalnum, of which only the digits, and '-' and ':' being outside `alnum`,
  // matter.

  import opened Identity
  import opened Options

  const MAX_JOB_BYTES: nat := 32768
  const MAX_TEXT: nat := 4096
  const MAX_EVENT_ID: nat := 128
  const MAX_LOCATIONS: nat := 64
  const MAX_FIELD: nat := 64
  const MAX_MESSAGE_ID: int := 2147483647
  const CLOCK_SKEW: int := 300
  const FRESHNESS: int := 600
  const MAX_AGE: int := 604800

  datatype Value = Null | Text(s: string) | Number(n: int) | Flag(b: bool) | Time(t: int) | List(items: seq<Value>)

  datatype DeliveryJob = DeliveryJob(
    chatId: int, step: int, text: string, silent: bool, eventId: Option<string>,
    sourceChat: Option<int>, sourceMessage: Option<int>, sourceTime: Option<int>,
    locations: seq<string>, generation: string
  )

  const FIELDS: set<string> :=
    {"chat_id", "step", "text", "silent", "event_id", "source_chat_id", "source_message_id", "source_timestamp",
     "source_locations", "recipient_generation"}

  type Payload = map<string, Value>

  /** _unique_object: a repeated member rejects the members, otherwise the dictionary holds exactly the pairs. */
  method UniqueObject(pairs: seq<(string, Value)>) returns (result: Option<Payload>)
    ensures result.None? <==> exists i, k :: 0 <= i < k < |pairs| && pairs[i].0 == pairs[k].0
    ensures result.Some? ==> forall key, value ::
              (key in result.value && result.value[key] == value) <==> (key, value) in pairs
  {
    var members: Payload := map[];
    for n := 0 to |pairs|
      invariant forall i, k :: 0 <= i < k < n ==> pairs[i].0 != pairs[k].0
      invariant forall i :: 0 <= i < n ==> pairs[i].0 in members && members[pairs[i].0] == pairs[i].1
      invariant forall key :: key in members ==> (key, members[key]) in pairs[..n]
    {
      var (key, value) := pairs[n];
      if key in members {
        assert (key, members[key]) in pairs[..n];
        return None;
      }
      members := members[key := value];
      assert pairs[..n + 1] == pairs[..n] + [pairs[n]];
    }
    assert pairs[..|pairs|] == pairs;
    return Some(members);
  }

  // ---- Field validators -----------------------------------------------------------------------------------

  predicate SafeInt(n: int) {
    -MAX_SAFE <= n <= MAX_SAFE
  }

  /** canonical_chat_id with its bounds: an integer, or a text that is exactly the print of the integer it parses to. */
  function ChatId(v: Value): Option<int> {
    match v
    case Number(n) => if n != 0 && SafeInt(n) then Some(n) else None
    case Text(s) =>
      var n := ParseInt(s);
      if n.Some? && Str(n.value) == s && n.value != 0 && SafeInt(n.value) then n else None
    case _ => None
  }

  /** Exactly the printed non-zero integers in range are accepted as text, and reading inverts printing. */
  lemma ChatIdExact(s: string, n: int)
    ensures ChatId(Text(s)) == Some(n) <==> s == Str(n) && n != 0 && SafeInt(n)
  {
    if s == Str(n) {
      ParseInverts(n);
    }
  }

  /** A reader that strips space takes " 5" for 5, and one that lets a sign through takes "+5". */
  lemma ReadsSpaceAndSign()
    ensures ParseInt(" 5") == ParseInt("+5") == ParseInt("5") == Some(5) && ParseInt("-0") == Some(0)
  {
    assert Stripped(" 5") == Stripped("5") == "5" by { assert " 5"[1..] == "5"; }
    assert "+5"[1..] == "5" && "-0"[1..] == "0";
    assert Magnitude("0") == Some(0) && Magnitude("5") == Some(5);
  }

  /** It lets leading zeros and underscores through too. */
  lemma ReadsZerosAndUnderscores()
    ensures ParseInt("005") == Some(5) && ParseInt("1_0") == Some(10)
  {
    assert "00"[..1] == "0" && "005"[..2] == "00" && "1_0"[..1] == "1";
    assert Magnitude("0") == Some(0) && Magnitude("00") == Some(0) && Magnitude("1") == Some(1);
    assert Magnitude("005") == Some(5) && Magnitude("1_0") == Some(10);
  }

  /** Texts that the lenient reader takes for the same number are refused. */
  lemma LenientTextsRefused()
    ensures ParseInt("+5") == ParseInt(" 5") == ParseInt("005") == ParseInt("5") == Some(5) && ParseInt("1_0") == Some(10)
    ensures ChatId(Text("+5")) == ChatId(Text(" 5")) == ChatId(Text("005")) == ChatId(Text("1_0")) == ChatId(Text("-0")) == None
    ensures ChatId(Text("5")) == Some(5)
  {
    ReadsSpaceAndSign();
    ReadsZerosAndUnderscores();
    hide ParseInt;
    assert Str(5) == "5" && Str(10) == "10" && Str(0) == "0";
  }

  function Member(p: Payload, key: string, default: Value): Value {
    if key in p then p[key] else default
  }

  predicate TextBetween(v: Value, low: nat, high: nat) {
    v.Text? && low <= |v.s| <= high
  }

  predicate EventIdOk(v: Value, word: char -> bool) {
    v.Null? || (TextBetween(v, 1, MAX_EVENT_ID) && forall c :: c in v.s ==> word(c) || c == ':' || c == '-')
  }

  predicate LocationOk(v: Value, alnum: char -> bool) {
    && TextBetween(v, 1, MAX_FIELD)
    && (forall c :: c in v.s ==> alnum(c) || c == '_' || c == '-')
    && (exists c :: c in v.s && c != '_' && c != '-')
  }

  predicate LocationsOk(v: Value, alnum: char -> bool) {
    v.List? && |v.items| <= MAX_LOCATIONS && forall x :: x in v.items ==> LocationOk(x, alnum)
  }

  predicate BoundedOrNull(v: Value, low: int, high: int) {
    v.Null? || (v.Number? && low <= v.n <= high)
  }

  function Int(v: Value): Option<int> {
    if v.Number? then Some(v.n) else None
  }

  function Texts(items: seq<Value>): (r: seq<string>)
    requires forall x :: x in items ==> x.Text?
    ensures |r| == |items| && forall i :: 0 <= i < |r| ==> r[i] == items[i].s
  {
    if items == [] then [] else [items[0].s] + Texts(items[1..])
  }

  predicate FieldsOk(p: Payload, now: int, word: char -> bool, alnum: char -> bool) {
    && p.Keys <= FIELDS
    && "chat_id" in p && ChatId(p["chat_id"]).Some?
    && "step" in p && p["step"].Number? && 1 <= p["step"].n <= 3
    && "text" in p && TextBetween(p["text"], 1, MAX_TEXT)
    && Member(p, "silent", Flag(false)).Flag?
    && EventIdOk(Member(p, "event_id", Null), word)
    && BoundedOrNull(Member(p, "source_chat_id", Null), -MAX_SAFE, MAX_SAFE)
    && BoundedOrNull(Member(p, "source_message_id", Null), 1, MAX_MESSAGE_ID)
    && (var t := Member(p, "source_timestamp", Null); t.Null? || (t.Time? && t.t - now <= CLOCK_SKEW))
    && LocationsOk(Member(p, "source_locations", List([])), alnum)
    && TextBetween(Member(p, "recipient_generation", Text("0")), 1, MAX_FIELD)
  }

  function Built(p: Payload, now: int, word: char -> bool, alnum: char -> bool): DeliveryJob
    requires FieldsOk(p, now, word, alnum)
  {
    var id, t := Member(p, "event_id", Null), Member(p, "source_timestamp", Null);
    DeliveryJob(ChatId(p["chat_id"]).value, p["step"].n, p["text"].s, Member(p, "silent", Flag(false)).b,
                if id.Text? then Some(id.s) else None,
                Int(Member(p, "source_chat_id", Null)), Int(Member(p, "source_message_id", Null)),
                if t.Time? then Some(t.t) else None,
                Texts(Member(p, "source_locations", List([])).items), Member(p, "recipient_generation", Text("0")).s)
  }

  /** consistent_identity */
  predicate Consistent(j: DeliveryJob) {
    && (j.sourceChat.None? <==> j.sourceMessage.None?)
    && (j.sourceChat.Some? && j.sourceMessage.Some? ==>
          j.eventId == Some(EventId(j.sourceChat.value, j.sourceMessage.value, j.chatId)))
    && (j.step > 1 ==> j.eventId.Some?)
  }

  /** DeliveryJob.model_validate */
  function Validate(p: Payload, now: int, word: char -> bool, alnum: char -> bool): Option<DeliveryJob> {
    if FieldsOk(p, now, word, alnum) && Consistent(Built(p, now, word, alnum)) then Some(Built(p, now, word, alnum)) else None
  }

  /** parse_delivery_job of a text of `bytes` bytes whose members are those of `p`, once each. */
  function ParseDeliveryJob(bytes: nat, p: Payload, now: int, word: char -> bool, alnum: char -> bool): Option<DeliveryJob> {
    if bytes > MAX_JOB_BYTES then None else Validate(p, now, word, alnum)
  }

  // ---- The producer -------------------------------------------------------------------------------------------

  /** What enqueue_alert is given for one stage. */
  datatype Alert = Alert(source: int, message: int, recipient: int, step: int, text: string, silent: bool,
                         time: Option<int>, locations: seq<string>, generation: string)

  function TextList(locations: seq<string>): (r: seq<Value>)
    ensures |r| == |locations| && forall i :: 0 <= i < |r| ==> r[i] == Text(locations[i])
  {
    if locations == [] then [] else [Text(locations[0])] + TextList(locations[1..])
  }

  function Produced(a: Alert): Payload {
    map["event_id" := Text(EventId(a.source, a.message, a.recipient)), "chat_id" := Text(Str(a.recipient)),
        "source_chat_id" := Number(a.source), "source_message_id" := Number(a.message),
        "source_timestamp" := if a.time.Some? then Time(a.time.value) else Null,
        "source_locations" := List(TextList(a.locations)), "recipient_generation" := Text(a.generation),
        "step" := Number(a.step), "text" := Text(a.text), "silent" := Flag(a.silent)]
  }

  /** The job the producer means. */
  function Intended(a: Alert): DeliveryJob {
    DeliveryJob(a.recipient, a.step, a.text, a.silent, Some(EventId(a.source, a.message, a.recipient)),
                Some(a.source), Some(a.message), a.time, a.locations, a.generation)
  }

  predicate WithinLimits(a: Alert, now: int, alnum: char -> bool) {
    && a.recipient != 0 && SafeInt(a.recipient) && SafeInt(a.source) && 1 <= a.message <= 2147483647
    && 1 <= a.step <= 3 && 1 <= |a.text| <= 4096 && 1 <= |a.generation| <= 64
    && (a.time.Some? ==> a.time.value - now <= 300)
    && |a.locations| <= 64
    && forall l :: l in a.locations ==> IsLocationKey(l, alnum)
  }

  /** One to 64 letters, digits, underscores and hyphens, not all of them underscores and hyphens. */
  predicate IsLocationKey(l: string, alnum: char -> bool) {
    && 1 <= |l| <= 64 && (forall c :: c in l ==> alnum(c) || c in "_-") && (exists c :: c in l && c !in "_-")
  }

  lemma LocationKeyIff(l: string, alnum: char -> bool)
    ensures LocationOk(Text(l), alnum) <==> IsLocationKey(l, alnum)
  {
    assert forall c: char :: c in "_-" <==> c == '_' || c == '-';
  }

  lemma StrChars(n: int, c: char)
    requires c in Str(n)
    ensures IsDigit(c) || c == '-'
  {
    DigitsOnly(if n < 0 then -n else n);
  }

  /** The printed identity of in-range integers always meets the pattern and the length limit. */
  lemma EventIdFits(source: int, message: int, recipient: int, word: char -> bool)
    requires SafeInt(source) && SafeInt(message) && SafeInt(recipient) && forall c :: IsDigit(c) ==> word(c)
    ensures EventIdOk(Text(EventId(source, message, recipient)), word)
  {
    StrShort(source); StrShort(message); StrShort(recipient);
    StrNoColon(source);
    var id := EventId(source, message, recipient);
    forall c | c in id ensures word(c) || c == ':' || c == '-' {
      if c in Str(source) {
        StrChars(source, c);
      } else if c in Str(message) {
        StrChars(message, c);
      } else if c in Str(recipient) {
        StrChars(recipient, c);
      }
    }
  }

  lemma LocationsFit(a: Alert, alnum: char -> bool)
    ensures LocationsOk(List(TextList(a.locations)), alnum) <==>
            |a.locations| <= MAX_LOCATIONS && forall l :: l in a.locations ==> IsLocationKey(l, alnum)
  {
    forall l ensures LocationOk(Text(l), alnum) <==> IsLocationKey(l, alnum) {
      LocationKeyIff(l, alnum);
    }
    hide LocationOk, IsLocationKey;
    var items := TextList(a.locations);
    forall i | 0 <= i < |items| ensures items[i] in items && a.locations[i] in a.locations && items[i] == Text(a.locations[i]) {
    }
  }

  lemma LocationsBack(locations: seq<string>)
    ensures forall x :: x in TextList(locations) ==> x.Text?
    ensures Texts(TextList(locations)) == locations
  {
  }

  lemma ProducedMembers(a: Alert, p: Payload)
    requires p == Produced(a)
    ensures p.Keys == FIELDS
    ensures p["event_id"] == Text(EventId(a.source, a.message, a.recipient)) && p["chat_id"] == Text(Str(a.recipient))
    ensures p["source_chat_id"] == Number(a.source) && p["source_message_id"] == Number(a.message)
    ensures p["source_timestamp"] == if a.time.Some? then Time(a.time.value) else Null
    ensures p["source_locations"] == List(TextList(a.locations)) && p["recipient_generation"] == Text(a.generation)
    ensures p["step"] == Number(a.step) && p["text"] == Text(a.text) && p["silent"] == Flag(a.silent)
  {
    hide EventId, Str, TextList;
  }

  lemma ChatIdOfPrint(n: int)
    ensures ChatId(Text(Str(n))) == if n != 0 && SafeInt(n) then Some(n) else None
  {
    ChatIdExact(Str(n), n);
    if ChatId(Text(Str(n))).Some? {
      ChatIdExact(Str(n), ChatId(Text(Str(n))).value);
      StrInjective(n, ChatId(Text(Str(n))).value);
    }
  }

  lemma FieldsWithinLimits(a: Alert, p: Payload, now: int, word: char -> bool, alnum: char -> bool)
    requires p == Produced(a) && forall c :: IsDigit(c) ==> word(c)
    ensures FieldsOk(p, now, word, alnum) <==> WithinLimits(a, now, alnum)
  {
    hide Produced, EventId, Str, TextList, ChatId, EventIdOk, LocationsOk, LocationOk, IsLocationKey;
    ProducedMembers(a, p);
    ChatIdOfPrint(a.recipient);
    LocationsFit(a, alnum);
    if SafeInt(a.source) && SafeInt(a.message) && SafeInt(a.recipient) {
      EventIdFits(a.source, a.message, a.recipient, word);
    }
  }

  lemma BuiltIsIntended(a: Alert, p: Payload, now: int, word: char -> bool, alnum: char -> bool)
    requires p == Produced(a) && FieldsOk(p, now, word, alnum) && WithinLimits(a, now, alnum)
    ensures Built(p, now, word, alnum) == Intended(a)
  {
    hide Produced, EventId, Str, TextList, ChatId, EventIdOk, LocationsOk, LocationOk, IsLocationKey;
    ProducedMembers(a, p);
    ChatIdOfPrint(a.recipient);
    LocationsBack(a.locations);
  }

  // ---- The size of the JSON text ------------------------------------------------------------------------------

  /** json.dumps writes ASCII only: two bytes for a quote, a backslash and the short escapes, six for any other
      character outside the printable range, twelve for one beyond the basic plane. */
  function EscapedSize(c: char): nat {
    if c == '"' || c == '\\' || c == '\n' || c == '\r' || c == '\t' || c as int == 8 || c as int == 12 then 2
    else if ' ' <= c <= '~' then 1
    else if c as int < 0x10000 then 6
    else 12
  }

  function TextSize(s: string): nat {
    if s == [] then 2 else EscapedSize(s[0]) + TextSize(s[1..])
  }

  /** A list of texts, with its brackets and separators. */
  function ListSize(items: seq<string>): nat {
    if items == [] then 2
    else if |items| == 1 then TextSize(items[0]) + 2
    else TextSize(items[0]) + 2 + ListSize(items[1..])
  }

  /** A member with its quotes, colon and separator. */
  function MemberSize(key: string, value: nat): nat {
    |key| + 6 + value
  }

  /** The length of the JSON text that enqueue_alert writes. A source time is written with its date, its time of day
      and its offset from UTC: 25 characters. */
  function EncodedSize(a: Alert): nat {
    MemberSize("event_id", TextSize(EventId(a.source, a.message, a.recipient)))
    + MemberSize("chat_id", TextSize(Str(a.recipient)))
    + MemberSize("source_chat_id", |Str(a.source)|) + MemberSize("source_message_id", |Str(a.message)|)
    + MemberSize("source_timestamp", if a.time.Some? then 27 else 4)
    + MemberSize("source_locations", ListSize(a.locations))
    + MemberSize("recipient_generation", TextSize(a.generation))
    + MemberSize("step", |Str(a.step)|) + MemberSize("text", TextSize(a.text))
    + MemberSize("silent", if a.silent then 4 else 5)
  }

  predicate Plain(s: string) {
    forall c :: c in s ==> ' ' <= c <= '~' && c != '"' && c != '\\'
  }

  /** How many characters of a text lie beyond the basic plane. */
  function Astral(s: string): nat {
    if s == [] then 0 else (if s[0] as int < 0x10000 then 0 else 1) + Astral(s[1..])
  }

  lemma {:induction false} TextSizeBounds(s: string)
    ensures TextSize(s) <= 2 + 6 * |s| + 6 * Astral(s)
    ensures Plain(s) ==> TextSize(s) == 2 + |s|
    ensures (forall c :: c in s ==> !(' ' <= c <= '~') && c as int >= 0x80) ==> TextSize(s) >= 2 + 6 * |s|
  {
    if s != [] {
      TextSizeBounds(s[1..]);
      assert s[0] in s && forall c :: c in s[1..] ==> c in s;
    }
  }

  lemma {:induction false} ListSizeBounds(items: seq<string>, low: nat, high: nat)
    requires forall x :: x in items ==> low <= TextSize(x) <= high
    ensures |items| * low <= ListSize(items) <= 2 + |items| * (high + 2)
  {
    hide TextSize;
    if items != [] {
      ListSizeBounds(items[1..], low, high);
      assert items[0] in items;
      assert |items| * low == low + (|items| - 1) * low;
      assert |items| * (high + 2) == high + 2 + (|items| - 1) * (high + 2);
    }
  }

  lemma EventIdSize(a: int, b: int, c: int)
    requires SafeInt(a) && SafeInt(b) && SafeInt(c)
    ensures Plain(EventId(a, b, c)) && |EventId(a, b, c)| <= 53
  {
    StrShort(a); StrShort(b); StrShort(c);
    var id := EventId(a, b, c);
    forall ch | ch in id ensures ' ' <= ch <= '~' && ch != '"' && ch != '\\' {
      if ch in Str(a) {
        StrChars(a, ch);
      } else if ch in Str(b) {
        StrChars(b, ch);
      } else if ch in Str(c) {
        StrChars(c, ch);
      }
    }
  }

  lemma StrPlain(n: int)
    requires SafeInt(n)
    ensures Plain(Str(n)) && |Str(n)| <= 17
  {
    StrShort(n);
    forall c | c in Str(n) ensures ' ' <= c <= '~' && c != '"' && c != '\\' {
      StrChars(n, c);
    }
  }

  lemma LocationListFits(a: Alert, now: int, alnum: char -> bool)
    requires WithinLimits(a, now, alnum) && forall l :: l in a.locations ==> Plain(l)
    ensures ListSize(a.locations) <= 2 + 64 * 68
  {
    forall l | l in a.locations ensures 0 <= TextSize(l) <= 66 {
      TextSizeBounds(l);
      assert IsLocationKey(l, alnum);
    }
    ListSizeBounds(a.locations, 0, 66);
    assert |a.locations| * 68 <= 64 * 68;
  }

  /** What the alert producer builds fits: location keys and generations are plain ASCII, and of the text no more than
      500 characters, icons for instance, lie beyond the basic plane. */
  lemma ProducedFits(a: Alert, now: int, alnum: char -> bool)
    requires WithinLimits(a, now, alnum) && Plain(a.generation) && forall l :: l in a.locations ==> Plain(l)
    requires Astral(a.text) <= 500
    ensures EncodedSize(a) <= MAX_JOB_BYTES
  {
    EventIdSize(a.source, a.message, a.recipient);
    TextSizeBounds(EventId(a.source, a.message, a.recipient));
    StrPlain(a.recipient); StrPlain(a.source); StrPlain(a.message); StrPlain(a.step);
    TextSizeBounds(Str(a.recipient));
    TextSizeBounds(a.generation);
    TextSizeBounds(a.text);
    LocationListFits(a, now, alnum);
    hide TextSize, ListSize, Plain, Astral, EventId, Str, IsLocationKey;
  }

  /** The field limits alone do not ensure it: a text and locations of full length in another alphabet are refused. */
  lemma FullForeignTextsDoNotFit(a: Alert, now: int, word: char -> bool, alnum: char -> bool)
    requires |a.text| == MAX_TEXT && |a.locations| == MAX_LOCATIONS
    requires forall c :: c in a.text ==> c as int >= 0x80
    requires forall l :: l in a.locations ==> |l| == MAX_FIELD && forall c :: c in l ==> c as int >= 0x80
    ensures ParseDeliveryJob(EncodedSize(a), Produced(a), now, word, alnum) == None
  {
    TextSizeBounds(a.text);
    var longest := MaxTextSize(a.locations);
    forall l | l in a.locations ensures 386 <= TextSize(l) <= longest {
      TextSizeBounds(l);
    }
    ListSizeBounds(a.locations, 386, longest);
    hide TextSize, ListSize;
  }

  lemma {:induction false} MaxTextSize(items: seq<string>) returns (longest: nat)
    ensures forall x :: x in items ==> TextSize(x) <= longest
  {
    if items == [] {
      longest := 0;
    } else {
      var rest := MaxTextSize(items[1..]);
      longest := TextSize(items[0]) + rest;
    }
  }

  /** A produced payload passes the consumer's contract exactly when its fields are within the limits and its JSON
      text is, and then it arrives unchanged. */
  lemma ProducedPasses(a: Alert, now: int, word: char -> bool, alnum: char -> bool)
    requires forall c :: IsDigit(c) ==> word(c)
    ensures ParseDeliveryJob(EncodedSize(a), Produced(a), now, word, alnum) ==
            if WithinLimits(a, now, alnum) && EncodedSize(a) <= MAX_JOB_BYTES then Some(Intended(a)) else None
  {
    hide Produced, FieldsOk, Built, WithinLimits, EncodedSize;
    var p := Produced(a);
    FieldsWithinLimits(a, p, now, word, alnum);
    if WithinLimits(a, now, alnum) {
      BuiltIsIntended(a, p, now, word, alnum);
    }
  }

  /** And every payload that passes, unless it is of the older kind without a source, is one that the producer could have
      written: its identity is that of its source, its message and its recipient. */
  lemma AcceptedIsProducible(bytes: nat, p: Payload, now: int, word: char -> bool, alnum: char -> bool) returns (a: Alert)
    requires ParseDeliveryJob(bytes, p, now, word, alnum).Some?
    requires ParseDeliveryJob(bytes, p, now, word, alnum).value.sourceChat.Some?
    ensures WithinLimits(a, now, alnum) && bytes <= 32768
    ensures ParseDeliveryJob(bytes, p, now, word, alnum) == Some(Intended(a))
    ensures p.Keys <= {"chat_id", "step", "text", "silent", "event_id", "source_chat_id", "source_message_id",
                       "source_timestamp", "source_locations", "recipient_generation"}
  {
    var j := ParseDeliveryJob(bytes, p, now, word, alnum).value;
    a := Alert(j.sourceChat.value, j.sourceMessage.value, j.chatId, j.step, j.text, j.silent, j.sourceTime, j.locations, j.generation);
    ChatIdSafe(p["chat_id"]);
    var items := Member(p, "source_locations", List([])).items;
    forall l | l in j.locations ensures IsLocationKey(l, alnum) {
      var i :| 0 <= i < |items| && j.locations[i] == l;
      assert items[i] in items;
      LocationKeyIff(l, alnum);
    }
  }

  /** A payload of the older kind has neither part of the source, and without an identity it is a first stage. */
  lemma OlderKind(bytes: nat, p: Payload, now: int, word: char -> bool, alnum: char -> bool)
    requires ParseDeliveryJob(bytes, p, now, word, alnum).Some?
    requires ParseDeliveryJob(bytes, p, now, word, alnum).value.sourceChat.None?
    ensures var j := ParseDeliveryJob(bytes, p, now, word, alnum).value;
      j.sourceMessage.None? && (j.eventId.None? ==> j.step == 1)
  {
  }

  lemma ChatIdSafe(v: Value)
    requires ChatId(v).Some?
    ensures ChatId(v).value != 0 && SafeInt(ChatId(v).value)
  {
  }

  // ---- Before the send ---------------------------------------------------------------------------------------------

  /** text.removeprefix(prefix) */
  function RemovePrefix(text: string, prefix: string): string {
    if prefix <= text then text[|prefix|..] else text
  }

  /** delivery_content: what is sent, or nothing. `first` is the heading of a first alert and `historical` that of a
      notice about the past. */
  function Content(j: DeliveryJob, text: string, silent: bool, first: string, historical: string, now: int): Option<(string, bool)> {
    var age := if j.sourceTime.Some? then Some(now - j.sourceTime.value) else None;
    if age.Some? && age.value > MAX_AGE then None
    else if age.None? || age.value > FRESHNESS then
      if j.step > 1 then None
      else
        var notice := historical + RemovePrefix(text, first);
        Some((if |notice| <= MAX_TEXT then notice else notice[..MAX_TEXT], true))
    else Some((text, silent))
  }

  /** Nothing over a week old is sent, no repeat of a stale or undated post is, a stale first stage goes out only
      as a silent notice, and what is sent stays within the text limit. */
  lemma ContentExact(j: DeliveryJob, text: string, silent: bool, first: string, historical: string, now: int)
    requires |text| <= MAX_TEXT
    ensures var recent := j.sourceTime.Some? && now - j.sourceTime.value <= FRESHNESS;
      var r := Content(j, text, silent, first, historical, now);
      && (r.None? <==> (j.sourceTime.Some? && now - j.sourceTime.value > MAX_AGE) || (!recent && j.step > 1))
      && (r.Some? ==> |r.value.0| <= MAX_TEXT && (recent ==> r.value == (text, silent)) && (!recent ==> r.value.1 && j.step <= 1))
  {
  }

  /** The notice made from a first alert replaces its heading and keeps its context, up to the text limit. One made
      from a text that was a notice already repeats that notice's heading. */
  lemma NoticeKeepsContext(j: DeliveryJob, context: string, silent: bool, first: string, historical: string, now: int)
    requires j.step <= 1 && j.sourceTime.Some? && FRESHNESS < now - j.sourceTime.value <= MAX_AGE
    requires |historical| + |historical| + |context| <= MAX_TEXT && !(first <= historical + context)
    ensures Content(j, first + context, silent, first, historical, now) == Some((historical + context, true))
    ensures Content(j, historical + context, silent, first, historical, now) == Some((historical + historical + context, true))
  {
    assert RemovePrefix(first + context, first) == context;
    assert historical + (historical + context) == historical + historical + context;
  }
}
