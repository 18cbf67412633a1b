/**
 The FIX 4.4 codec and stream framer (services/gateway/fix_gateway.go): `encode` prints
 a message as tag=value pairs, each ended by SOH; `decode` parses one; the receive loop
 cuts a byte stream into messages.
 */
module FixGateway {
  import opened Basics
  import opened FixText
  import opened Sorting

  const SOH := '\U{0001}'

  /** What the receive loop looks for: tag 10 at the start of a pair. */
  const MARKER := [SOH, '1', '0', '=']

  datatype Message = Message(
    beginString: string,
    bodyLength: int,
    msgType: string,
    senderCompId: string,
    targetCompId: string,
    msgSeqNum: int,
    sendingTime: string,
    fields: map<int, string>)

  const NEW_MESSAGE := Message("", 0, "", "", "", 0, "", map[])

  /** Tags that have a place of their own. */
  predicate Reserved(tag: int) {
    tag == 8 || tag == 9 || tag == 35 || tag == 49 || tag == 56 || tag == 34 || tag == 52 || tag == 10
  }

  // ----- the wire format

  function Pair(tag: int, value: string): string {
    FormatInt(tag) + ['='] + value
  }

  /** The pairs one after the other, each ended by SOH. */
  function Joined(pairs: seq<string>): string {
    if pairs == [] then [] else Joined(pairs[..|pairs| - 1]) + pairs[|pairs| - 1] + [SOH]
  }

  function HeaderPairs(m: Message, length: int): seq<string> {
    [Pair(8, m.beginString), Pair(9, FormatInt(length))]
  }

  predicate InUse(fields: map<int, string>, keys: seq<int>) {
    forall i :: 0 <= i < |keys| ==> keys[i] in fields
  }

  function FieldPairs(fields: map<int, string>, keys: seq<int>): seq<string>
    requires InUse(fields, keys)
  {
    if keys == [] then []
    else
      var n := |keys| - 1;
      FieldPairs(fields, keys[..n]) + [Pair(keys[n], fields[keys[n]])]
  }

  function FixedPairs(m: Message): seq<string> {
    [Pair(35, m.msgType), Pair(49, m.senderCompId), Pair(56, m.targetCompId),
     Pair(34, FormatInt(m.msgSeqNum)), Pair(52, m.sendingTime)]
  }

  /** Tag 35 up to tag 10. */
  function BodyPairs(m: Message, keys: seq<int>): seq<string>
    requires InUse(m.fields, keys)
  {
    FixedPairs(m) + FieldPairs(m.fields, keys)
  }

  function CharSum(s: string): nat {
    if s == [] then 0 else CharSum(s[..|s| - 1]) + s[|s| - 1] as int
  }

  /** `%03d` for numbers below 1000. */
  function ThreeDigits(n: nat): string
    requires n < 1000
  {
    [Digit(n / 100), Digit(n / 10 % 10), Digit(n % 10)]
  }

  /** The text that `checksum` is given: everything before tag 10, the length still 0. */
  function Summed(m: Message, keys: seq<int>): string
    requires InUse(m.fields, keys)
  {
    Joined(HeaderPairs(m, 0) + BodyPairs(m, keys))
  }

  function ChecksumOf(text: string): string {
    ThreeDigits(CharSum(text) % 256)
  }

  function BodyLengthOf(m: Message, keys: seq<int>): nat
    requires InUse(m.fields, keys)
  {
    |Joined(BodyPairs(m, keys))|
  }

  function EncodedPairs(m: Message, keys: seq<int>): seq<string>
    requires InUse(m.fields, keys)
  {
    HeaderPairs(m, BodyLengthOf(m, keys)) + BodyPairs(m, keys) + [Pair(10, ChecksumOf(Summed(m, keys)))]
  }

  function Encoded(m: Message, keys: seq<int>): string
    requires InUse(m.fields, keys)
  {
    Joined(EncodedPairs(m, keys))
  }

  /** The fields' tags in the order they are written. */
  ghost predicate FieldOrder(fields: map<int, string>, keys: seq<int>) {
    && InUse(fields, keys)
    && (forall k :: k in fields ==> k in keys)
    && (forall i, j :: 0 <= i < j < |keys| ==> keys[i] < keys[j])
  }

  // ----- decoding

  function ScanOr(s: string, default: int): int {
    match ScanInt(s)
    case Some(n) => n
    case None => default
  }

  function SetTag(m: Message, tag: int, value: string): Message {
    if tag == 8 then m.(beginString := value)
    else if tag == 9 then m.(bodyLength := ScanOr(value, m.bodyLength))
    else if tag == 35 then m.(msgType := value)
    else if tag == 49 then m.(senderCompId := value)
    else if tag == 56 then m.(targetCompId := value)
    else if tag == 34 then m.(msgSeqNum := ScanOr(value, m.msgSeqNum))
    else if tag == 52 then m.(sendingTime := value)
    else if tag == 10 then m
    else m.(fields := m.fields[tag := value])
  }

  function ReadPair(m: Message, pair: string): Message {
    var k := IndexOf(pair, '=');
    if k == |pair| then m else SetTag(m, ScanOr(pair[..k], 0), pair[k + 1..])
  }

  function ReadPairs(pairs: seq<string>): Message {
    if pairs == [] then NEW_MESSAGE else ReadPair(ReadPairs(pairs[..|pairs| - 1]), pairs[|pairs| - 1])
  }

  function Decoded(raw: string): Message {
    ReadPairs(Split(TrimRight(raw, SOH), SOH))
  }

  // ----- framing

  /** Grows `raw` chunk by chunk until it holds tag 10, or the stream ends. */
  function Frame(raw: string, rest: string): (string, string)
    decreases |rest|
  {
    var k := IndexOf(rest, SOH);
    if Contains(raw, MARKER) then (raw, rest)
    else if k == |rest| then (raw, [])
    else Frame(raw + rest[..k + 1], rest[k + 1..])
  }

  lemma {:induction false} FrameShrinks(raw: string, rest: string)
    ensures |Frame(raw, rest).1| <= |rest|
    decreases |rest|
  {
    var k := IndexOf(rest, SOH);
    if !Contains(raw, MARKER) && k < |rest| {
      FrameShrinks(raw + rest[..k + 1], rest[k + 1..]);
    }
  }

  /** The messages the receive loop hands on, up to the end of the stream or a logout. */
  function Received(stream: string): seq<Message>
    decreases |stream|
  {
    var k := IndexOf(stream, SOH);
    if k == |stream| then []
    else
      FrameShrinks(stream[..k + 1], stream[k + 1..]);
      var (raw, rest) := Frame(stream[..k + 1], stream[k + 1..]);
      var m := Decoded(raw);
      if m.msgType == "5" then [m] else [m] + Received(rest)
  }

  // ----- the methods

  method Checksum(pairs: seq<string>) returns (text: string)
    ensures text == ChecksumOf(Joined(pairs))
  {
    var sum := 0;
    for i := 0 to |pairs|
      invariant sum == CharSum(Joined(pairs[..i]))
    {
      var t := pairs[i] + [SOH];
      assert pairs[..i + 1][..i] == pairs[..i];
      assert Joined(pairs[..i + 1]) == Joined(pairs[..i]) + t;
      assert Joined(pairs[..i]) + t[..0] == Joined(pairs[..i]);
      for j := 0 to |t|
        invariant sum == CharSum(Joined(pairs[..i]) + t[..j])
      {
        var s := Joined(pairs[..i]) + t[..j + 1];
        assert s[..|s| - 1] == Joined(pairs[..i]) + t[..j];
        sum := sum + t[j] as int;
      }
      assert t[..|t|] == t;
    }
    assert pairs[..|pairs|] == pairs;
    text := ThreeDigits(sum % 256);
  }

  /** The tags in use, in the unspecified order of a map iteration. */
  method KeysOf(fields: map<int, string>) returns (keys: seq<int>)
    ensures forall k :: k in keys <==> k in fields
    ensures forall i, j :: 0 <= i < j < |keys| ==> keys[i] != keys[j]
  {
    keys := [];
    var left := fields.Keys;
    while exists k :: k in left
      invariant forall k :: k in fields <==> k in left || k in keys
      invariant forall k :: k in left ==> k !in keys
      invariant forall i, j :: 0 <= i < j < |keys| ==> keys[i] != keys[j]
      decreases |left|
    {
      var k :| k in left;
      keys := keys + [k];
      left := left - {k};
    }
  }

  lemma {:induction false} SortedTagsAreAnOrder(fields: map<int, string>, keys: seq<int>, sorted: seq<int>)
    requires forall k :: k in keys <==> k in fields
    requires forall i, j :: 0 <= i < j < |keys| ==> keys[i] != keys[j]
    requires multiset(sorted) == multiset(keys) && SortedBy(sorted, (a: int, b: int) => a < b)
    ensures FieldOrder(fields, sorted)
  {
    forall k
      ensures k in sorted <==> k in fields
    {
      assert k in sorted <==> k in multiset(sorted);
      assert k in keys <==> k in multiset(keys);
    }
    assert forall i :: 0 <= i < |sorted| ==> sorted[i] in sorted;
    forall i, j | 0 <= i < j < |sorted|
      ensures sorted[i] < sorted[j]
    {
      if sorted[i] == sorted[j] {
        DuplicateCount(sorted, i, j);
        DistinctCount(keys, sorted[i]);
      }
    }
  }

  lemma {:induction false} DuplicateCount(s: seq<int>, i: nat, j: nat)
    requires i < j < |s| && s[i] == s[j]
    ensures multiset(s)[s[i]] >= 2
  {
    assert s == s[..i] + ([s[i]] + s[i + 1..j] + [s[j]] + s[j + 1..]);
  }

  lemma {:induction false} DistinctCount(s: seq<int>, x: int)
    requires forall i, j :: 0 <= i < j < |s| ==> s[i] != s[j]
    ensures multiset(s)[x] <= 1
  {
    if s != [] {
      var n := |s| - 1;
      DistinctCount(s[..n], x);
      assert s == s[..n] + [s[n]];
      assert s[n] !in s[..n];
    }
  }

  /** Writing the length over the placeholder in `tags[1]`. */
  lemma {:induction false} LengthPatched(m: Message, body: seq<string>, last: string, length: int)
    ensures |HeaderPairs(m, 0)| == 2
    ensures (HeaderPairs(m, 0) + body + [last])[2..2 + |body|] == body
    ensures (HeaderPairs(m, 0) + body + [last])[1 := Pair(9, FormatInt(length))]
         == HeaderPairs(m, length) + body + [last]
  {
  }

  /** The loop over the sorted tags. */
  method AppendFields(tags: seq<string>, fields: map<int, string>, keys: seq<int>) returns (r: seq<string>)
    requires InUse(fields, keys)
    ensures r == tags + FieldPairs(fields, keys)
  {
    hide Pair;
    r := tags;
    for i := 0 to |keys|
      invariant r == tags + FieldPairs(fields, keys[..i])
    {
      assert keys[..i + 1][..i] == keys[..i];
      r := r + [Pair(keys[i], fields[keys[i]])];
    }
    assert keys[..|keys|] == keys;
  }

  ghost predicate IsEncoding(m: Message, text: string) {
    exists keys :: FieldOrder(m.fields, keys) && text == Encoded(m, keys)
  }

  method Encode(m: Message) returns (text: string)
    ensures IsEncoding(m, text)
  {
    hide HeaderPairs, FixedPairs, FieldPairs, Pair, Joined, ChecksumOf, FormatInt;
    var unsorted := KeysOf(m.fields);
    var sorted := SortSlice(unsorted, (a: int, b: int) => a < b);
    SortedTagsAreAnOrder(m.fields, unsorted, sorted);
    var tags := AppendFields(HeaderPairs(m, 0) + FixedPairs(m), m.fields, sorted);
    assert tags == HeaderPairs(m, 0) + BodyPairs(m, sorted);
    var sum := Checksum(tags);
    LengthPatched(m, BodyPairs(m, sorted), Pair(10, sum), BodyLengthOf(m, sorted));
    tags := tags + [Pair(10, sum)];
    var body := Joined(tags[2..|tags| - 1]);
    tags := tags[1 := Pair(9, FormatInt(|body|))];
    text := Joined(tags);
    assert FieldOrder(m.fields, sorted) && text == Encoded(m, sorted);
  }

  method Decode(raw: string) returns (m: Message)
    ensures m == Decoded(raw)
  {
    m := NEW_MESSAGE;
    var pairs := Split(TrimRight(raw, SOH), SOH);
    for i := 0 to |pairs|
      invariant m == ReadPairs(pairs[..i])
    {
      var pair := pairs[i];
      assert pairs[..i + 1][..i] == pairs[..i];
      if pair == [] {
        continue;
      }
      var k := IndexOf(pair, '=');
      if k == |pair| {
        continue;
      }
      var tag := ScanOr(pair[..k], 0);
      m := SetTag(m, tag, pair[k + 1..]);
    }
    assert pairs[..|pairs|] == pairs;
  }

  /** The inner loop: reads on until `raw` holds tag 10. */
  method ReadFrame(first: string, stream: string) returns (raw: string, rest: string)
    ensures (raw, rest) == Frame(first, stream)
  {
    raw, rest := first, stream;
    while !Contains(raw, MARKER)
      invariant Frame(raw, rest) == Frame(first, stream)
      decreases |rest|
    {
      var k := IndexOf(rest, SOH);
      if k == |rest| {
        return raw, [];
      }
      raw, rest := raw + rest[..k + 1], rest[k + 1..];
    }
  }

  lemma {:induction false} ReceivedStep(stream: string, k: nat)
    requires k == IndexOf(stream, SOH) && k < |stream|
    ensures
      var (raw, rest) := Frame(stream[..k + 1], stream[k + 1..]);
      Received(stream) == if Decoded(raw).msgType == "5" then [Decoded(raw)] else [Decoded(raw)] + Received(rest)
  {
    hide Frame, Decoded;
  }

  /** The receive loop on a stream that then ends. */
  method ReceiveLoop(stream: string) returns (delivered: seq<Message>)
    ensures delivered == Received(stream)
  {
    hide Frame, Decoded;
    delivered := [];
    var rest := stream;
    var k := IndexOf(rest, SOH);
    while k < |rest|
      invariant k == IndexOf(rest, SOH)
      invariant delivered + Received(rest) == Received(stream)
      decreases |rest|
    {
      hide Received;
      FrameShrinks(rest[..k + 1], rest[k + 1..]);
      ReceivedStep(rest, k);
      ghost var before, seen := rest, delivered;
      var raw;
      raw, rest := ReadFrame(rest[..k + 1], rest[k + 1..]);
      var m := Decode(raw);
      delivered := delivered + [m];
      if m.msgType == "5" {
        return;
      }
      assert seen + Received(before) == delivered + Received(rest);
      k := IndexOf(rest, SOH);
    }
  }
}
