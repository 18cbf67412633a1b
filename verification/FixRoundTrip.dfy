/**
 What the FIX codec promises: an encoded message decodes to itself, a stream of encoded
 messages is received as it was sent, and how its CheckSum differs from the standard's.
 */
module FixRoundTrip {
  import opened FixText
  import opened FixGateway

  /** No SOH in the values, no tag among the fields that has a place of its own; numbers
      are 64-bit, as Go's `int` always is. */
  ghost predicate WellFormed(m: Message) {
    && SOH !in m.beginString && SOH !in m.msgType && SOH !in m.senderCompId && SOH !in m.targetCompId
    && SOH !in m.sendingTime && IsInt64(m.msgSeqNum)
    && (forall k :: k in m.fields ==> !Reserved(k) && IsInt64(k) && SOH !in m.fields[k])
  }

  ghost predicate SohFree(pairs: seq<string>) {
    forall i :: 0 <= i < |pairs| ==> SOH !in pairs[i]
  }

  // ----- one pair

  lemma {:induction false} FormatIntPlain(n: int)
    ensures SOH !in FormatInt(n) && '=' !in FormatInt(n)
  {
    forall i: nat | i < |FormatInt(n)|
      ensures FormatInt(n)[i] != SOH && FormatInt(n)[i] != '='
    {
      FormatIntAt(n, i);
    }
  }

  lemma {:induction false} PairIsSohFree(tag: int, value: string)
    requires SOH !in value
    ensures SOH !in Pair(tag, value) && Pair(tag, value) != []
  {
    hide FormatInt;
    FormatIntPlain(tag);
  }

  lemma {:induction false} ReadPrintedPair(m: Message, tag: int, value: string)
    requires IsInt64(tag)
    ensures ReadPair(m, Pair(tag, value)) == SetTag(m, tag, value)
  {
    hide FormatInt, ScanInt, IndexOf, SetTag;
    var name, pair := FormatInt(tag), Pair(tag, value);
    FormatIntPlain(tag);
    IndexOfFirst(name, '=', value);
    ScanFormat(tag);
    assert pair == name + ['='] + value;
    assert pair[..|name|] == name && pair[|name| + 1..] == value;
  }

  lemma {:induction false} ReadOneMore(pairs: seq<string>, tag: int, value: string)
    requires IsInt64(tag)
    ensures ReadPairs(pairs + [Pair(tag, value)]) == SetTag(ReadPairs(pairs), tag, value)
  {
    hide Pair, SetTag, ReadPair;
    assert (pairs + [Pair(tag, value)])[..|pairs|] == pairs;
    ReadPrintedPair(ReadPairs(pairs), tag, value);
  }

  // ----- one message

  lemma {:induction false} ReadHeader(m: Message, length: int)
    requires IsInt64(length)
    ensures ReadPairs(HeaderPairs(m, length)) == NEW_MESSAGE.(beginString := m.beginString, bodyLength := length)
  {
    hide Pair, ReadPair, FormatInt, ScanInt;
    ReadOneMore([], 8, m.beginString);
    ReadOneMore([Pair(8, m.beginString)], 9, FormatInt(length));
    ScanFormat(length);
    assert [] + [Pair(8, m.beginString)] == [Pair(8, m.beginString)];
    assert [Pair(8, m.beginString)] + [Pair(9, FormatInt(length))] == HeaderPairs(m, length);
  }

  lemma {:induction false} ReadFixed(m: Message, pairs: seq<string>)
    requires IsInt64(m.msgSeqNum)
    ensures ReadPairs(pairs + FixedPairs(m)) == ReadPairs(pairs).(
              msgType := m.msgType, senderCompId := m.senderCompId, targetCompId := m.targetCompId,
              msgSeqNum := m.msgSeqNum, sendingTime := m.sendingTime)
  {
    hide Pair, ReadPair, FormatInt, ScanInt, ReadPairs;
    var p1 := pairs + [Pair(35, m.msgType)];
    var p2 := p1 + [Pair(49, m.senderCompId)];
    var p3 := p2 + [Pair(56, m.targetCompId)];
    var p4 := p3 + [Pair(34, FormatInt(m.msgSeqNum))];
    ReadOneMore(pairs, 35, m.msgType);
    ReadOneMore(p1, 49, m.senderCompId);
    ReadOneMore(p2, 56, m.targetCompId);
    ReadOneMore(p3, 34, FormatInt(m.msgSeqNum));
    ReadOneMore(p4, 52, m.sendingTime);
    ScanFormat(m.msgSeqNum);
    assert p4 + [Pair(52, m.sendingTime)] == pairs + FixedPairs(m);
  }

  function Restricted(fields: map<int, string>, keys: seq<int>): map<int, string>
    requires InUse(fields, keys)
  {
    map k | k in keys :: fields[k]
  }

  lemma {:induction false} RestrictedToAll(fields: map<int, string>, keys: seq<int>)
    requires FieldOrder(fields, keys)
    ensures Restricted(fields, keys) == fields
  {
    var r := Restricted(fields, keys);
    assert forall k :: k in fields ==> k in r;
    assert r.Keys == fields.Keys;
  }

  lemma {:induction false} ReadFields(pairs: seq<string>, fields: map<int, string>, keys: seq<int>)
    requires InUse(fields, keys)
    requires forall k :: k in fields ==> !Reserved(k) && IsInt64(k)
    requires ReadPairs(pairs).fields == map[]
    ensures ReadPairs(pairs + FieldPairs(fields, keys)) == ReadPairs(pairs).(fields := Restricted(fields, keys))
  {
    hide Pair, ReadPair, ReadPairs;
    if keys == [] {
      assert pairs + FieldPairs(fields, keys) == pairs;
    } else {
      var n := |keys| - 1;
      var key := keys[n];
      ReadFields(pairs, fields, keys[..n]);
      ReadOneMore(pairs + FieldPairs(fields, keys[..n]), key, fields[key]);
      assert pairs + FieldPairs(fields, keys)
          == pairs + FieldPairs(fields, keys[..n]) + [Pair(key, fields[key])];
      assert keys == keys[..n] + [key];
      assert Restricted(fields, keys) == Restricted(fields, keys[..n])[key := fields[key]];
    }
  }

  lemma {:induction false} ReadEncoded(m: Message, keys: seq<int>)
    requires WellFormed(m) && FieldOrder(m.fields, keys) && IsInt64(BodyLengthOf(m, keys))
    ensures ReadPairs(EncodedPairs(m, keys)) == m.(bodyLength := BodyLengthOf(m, keys))
  {
    hide Pair, ReadPair, ReadPairs, HeaderPairs, FixedPairs, FieldPairs, BodyLengthOf, ChecksumOf, Summed;
    var header := HeaderPairs(m, BodyLengthOf(m, keys));
    var check := ChecksumOf(Summed(m, keys));
    ReadHeader(m, BodyLengthOf(m, keys));
    ReadFixed(m, header);
    ReadFields(header + FixedPairs(m), m.fields, keys);
    ReadOneMore(header + FixedPairs(m) + FieldPairs(m.fields, keys), 10, check);
    RestrictedToAll(m.fields, keys);
    assert header + FixedPairs(m) + FieldPairs(m.fields, keys) == header + BodyPairs(m, keys);
  }

  // ----- the text of a message

  lemma {:induction false} JoinedConcat(a: seq<string>, b: seq<string>)
    ensures Joined(a + b) == Joined(a) + Joined(b)
    decreases |b|
  {
    if b == [] {
      assert a + b == a;
    } else {
      var n := |b| - 1;
      assert (a + b)[..|a + b| - 1] == a + b[..n];
      JoinedConcat(a, b[..n]);
    }
  }

  lemma {:induction false} JoinedNone()
    ensures Joined([]) == []
  {
  }

  lemma {:induction false} JoinedOne(pair: string)
    ensures Joined([pair]) == pair + [SOH]
  {
    assert [pair][..|[pair]| - 1] == [];
    assert Joined([]) == [];
  }

  lemma {:induction false} JoinedFirst(pairs: seq<string>)
    requires pairs != []
    ensures Joined(pairs) == pairs[0] + [SOH] + Joined(pairs[1..])
  {
    hide Joined;
    assert pairs == [pairs[0]] + pairs[1..];
    JoinedConcat([pairs[0]], pairs[1..]);
    JoinedOne(pairs[0]);
  }

  /** Splitting undoes joining. */
  lemma {:induction false} SplitJoined(pairs: seq<string>, last: string)
    requires SohFree(pairs) && SOH !in last
    ensures Split(Joined(pairs) + last, SOH) == pairs + [last]
    decreases |pairs|
  {
    hide Joined, Split;
    if pairs == [] {
      JoinedNone();
      assert Joined(pairs) + last == last;
      SplitWhole(last, SOH);
    } else {
      JoinedFirst(pairs);
      SplitJoined(pairs[1..], last);
      SplitFirst(pairs[0], SOH, Joined(pairs[1..]) + last);
      assert Joined(pairs) + last == pairs[0] + [SOH] + (Joined(pairs[1..]) + last);
      assert pairs + [last] == [pairs[0]] + (pairs[1..] + [last]);
    }
  }

  lemma {:induction false} TrimOne(s: string, last: string)
    requires last != [] && SOH !in last
    ensures TrimRight(s + last + [SOH], SOH) == s + last
  {
    var t := s + last + [SOH];
    assert t[..|t| - 1] == s + last;
    assert (s + last)[|s + last| - 1] == last[|last| - 1];
  }

  lemma {:induction false} DecodeJoined(pairs: seq<string>, last: string)
    requires SohFree(pairs) && last != [] && SOH !in last
    ensures Decoded(Joined(pairs + [last])) == ReadPairs(pairs + [last])
  {
    hide ReadPairs, Split, TrimRight;
    assert (pairs + [last])[..|pairs|] == pairs;
    TrimOne(Joined(pairs), last);
    SplitJoined(pairs, last);
  }

  lemma {:induction false} FieldPairsSohFree(fields: map<int, string>, keys: seq<int>)
    requires InUse(fields, keys)
    requires forall k :: k in fields ==> SOH !in fields[k]
    ensures |FieldPairs(fields, keys)| == |keys|
    ensures SohFree(FieldPairs(fields, keys))
  {
    hide Pair;
    if keys != [] {
      var n := |keys| - 1;
      FieldPairsSohFree(fields, keys[..n]);
      PairIsSohFree(keys[n], fields[keys[n]]);
    }
  }

  lemma {:induction false} HeaderPairsSohFree(m: Message, length: int)
    requires WellFormed(m)
    ensures SohFree(HeaderPairs(m, length)) && |HeaderPairs(m, length)| == 2
  {
    hide Pair, FormatInt;
    FormatIntPlain(length);
    PairIsSohFree(8, m.beginString);
    PairIsSohFree(9, FormatInt(length));
  }

  lemma {:induction false} FixedPairsSohFree(m: Message)
    requires WellFormed(m)
    ensures SohFree(FixedPairs(m)) && |FixedPairs(m)| == 5
  {
    hide Pair, FormatInt;
    FormatIntPlain(m.msgSeqNum);
    PairIsSohFree(35, m.msgType);
    PairIsSohFree(49, m.senderCompId);
    PairIsSohFree(56, m.targetCompId);
    PairIsSohFree(34, FormatInt(m.msgSeqNum));
    PairIsSohFree(52, m.sendingTime);
  }

  lemma {:induction false} ChecksumSohFree(text: string)
    ensures SOH !in ChecksumOf(text)
  {
  }

  /** Everything before tag 10. */
  function LeadingPairs(m: Message, keys: seq<int>): seq<string>
    requires InUse(m.fields, keys)
  {
    HeaderPairs(m, BodyLengthOf(m, keys)) + BodyPairs(m, keys)
  }

  lemma {:induction false} LeadingPairsSohFree(m: Message, keys: seq<int>)
    requires WellFormed(m) && InUse(m.fields, keys)
    ensures SohFree(LeadingPairs(m, keys))
  {
    hide HeaderPairs, FixedPairs, FieldPairs;
    HeaderPairsSohFree(m, BodyLengthOf(m, keys));
    FixedPairsSohFree(m);
    FieldPairsSohFree(m.fields, keys);
  }

  /** Decoding undoes encoding; the length becomes that of the text from tag 35 up to tag 10. */
  lemma {:induction false} DecodeEncoded(m: Message, keys: seq<int>)
    requires WellFormed(m) && FieldOrder(m.fields, keys) && IsInt64(BodyLengthOf(m, keys))
    ensures Decoded(Encoded(m, keys)) == m.(bodyLength := BodyLengthOf(m, keys))
  {
    hide HeaderPairs, BodyPairs, Decoded, Joined, ChecksumOf, Summed, Pair, BodyLengthOf, ReadPairs;
    var check := Pair(10, ChecksumOf(Summed(m, keys)));
    LeadingPairsSohFree(m, keys);
    ChecksumSohFree(Summed(m, keys));
    PairIsSohFree(10, ChecksumOf(Summed(m, keys)));
    DecodeJoined(LeadingPairs(m, keys), check);
    ReadEncoded(m, keys);
  }

  /** On the wire: BeginString, the length of the body, the body, the checksum. */
  lemma {:induction false} EncodedLayout(m: Message, keys: seq<int>)
    requires InUse(m.fields, keys)
    ensures
      var body := Joined(BodyPairs(m, keys));
      Encoded(m, keys) == Pair(8, m.beginString) + [SOH] + Pair(9, FormatInt(|body|)) + [SOH]
                        + body + Pair(10, ChecksumOf(Summed(m, keys))) + [SOH]
  {
    hide BodyPairs, Pair, FormatInt, ChecksumOf, Summed;
    var header, body := HeaderPairs(m, BodyLengthOf(m, keys)), BodyPairs(m, keys);
    var check := Pair(10, ChecksumOf(Summed(m, keys)));
    assert (header + body + [check])[..|header + body|] == header + body;
    JoinedConcat(header, body);
    assert header[..1] == [Pair(8, m.beginString)];
    JoinedOne(Pair(8, m.beginString));
  }

  lemma {:induction false} TagTexts()
    ensures FormatInt(8) == "8" && FormatInt(9) == "9" && FormatInt(35) == "35" && FormatInt(49) == "49"
    ensures FormatInt(56) == "56" && FormatInt(34) == "34" && FormatInt(52) == "52" && FormatInt(10) == "10"
  {
    assert Digits(1) == "1" && Digits(3) == "3" && Digits(4) == "4" && Digits(5) == "5";
    assert Digits(10) == Digits(1) + "0" && Digits(34) == Digits(3) + "4" && Digits(35) == Digits(3) + "5";
    assert Digits(49) == Digits(4) + "9" && Digits(52) == Digits(5) + "2" && Digits(56) == Digits(5) + "6";
  }

  /** Which field goes under which tag: those of FIX 4.4's standard header and trailer. */
  lemma {:induction false} WireTags(m: Message, length: int, checksum: string)
    ensures HeaderPairs(m, length) == ["8=" + m.beginString, "9=" + FormatInt(length)]
    ensures FixedPairs(m) == ["35=" + m.msgType, "49=" + m.senderCompId, "56=" + m.targetCompId,
                              "34=" + FormatInt(m.msgSeqNum), "52=" + m.sendingTime]
    ensures Pair(10, checksum) == "10=" + checksum
  {
    hide FormatInt;
    TagTexts();
    assert "8" + ['='] == "8=" && "9" + ['='] == "9=" && "10" + ['='] == "10=" && "34" + ['='] == "34=";
    assert "35" + ['='] == "35=" && "49" + ['='] == "49=" && "56" + ['='] == "56=" && "52" + ['='] == "52=";
  }

  /** A pair without an equals sign is skipped, wherever it stands. */
  lemma {:induction false} GarbageIsSkipped(before: seq<string>, garbage: string, after: seq<string>)
    requires '=' !in garbage
    ensures ReadPairs(before + [garbage] + after) == ReadPairs(before + after)
    decreases |after|
  {
    hide SetTag, ScanOr;
    if after == [] {
      assert before + [garbage] + after == before + [garbage] && before + after == before;
      assert (before + [garbage])[..|before|] == before;
      IndexOfAbsent(garbage, '=');
    } else {
      var n := |after| - 1;
      var all, rest := before + [garbage] + after, before + after;
      GarbageIsSkipped(before, garbage, after[..n]);
      assert all[..|all| - 1] == before + [garbage] + after[..n] && rest[..|rest| - 1] == before + after[..n];
    }
  }

  lemma {:induction false} IndexOfAbsent(s: string, c: char)
    requires c !in s
    ensures IndexOf(s, c) == |s|
  {
    if s != [] {
      IndexOfAbsent(s[1..], c);
    }
  }

  // ----- a stream of messages

  ghost predicate StartsTrailer(pair: string) {
    ['1', '0', '='] <= pair
  }

  /** Reading one more pair completes the marker exactly when the pair has tag 10. */
  lemma {:induction false} MarkerArrives(raw: string, pair: string)
    requires SOH !in pair && raw != [] && raw[|raw| - 1] == SOH && !Contains(raw, MARKER)
    ensures Contains(raw + pair + [SOH], MARKER) <==> StartsTrailer(pair)
  {
    var s := raw + pair + [SOH];
    if StartsTrailer(pair) {
      assert MARKER <= s[|raw| - 1..];
    }
    if Contains(s, MARKER) {
      var k :| 0 <= k <= |s| && MARKER <= s[k..];
      assert s[k] == SOH && s[k + 1] == '1' && s[k + 2] == '0' && s[k + 3] == '=';
      assert k <= |raw| ==> !(MARKER <= raw[k..]);
      assert k == |raw| - 1;
      assert pair[0] == '1' && pair[1] == '0' && pair[2] == '=';
    }
  }

  lemma {:induction false} FirstPairHasNoMarker(pair: string)
    requires SOH !in pair
    ensures !Contains(pair + [SOH], MARKER)
  {
    var s := pair + [SOH];
    forall k | 0 <= k <= |s|
      ensures !(MARKER <= s[k..])
    {
      assert |s[k..]| >= 4 ==> s[k..][0] == pair[k];
    }
  }

  /** The framer takes pair after pair, up to and including the one with tag 10. */
  lemma {:induction false} FrameTakes(raw: string, pairs: seq<string>, last: string, rest: string)
    requires raw != [] && raw[|raw| - 1] == SOH && !Contains(raw, MARKER)
    requires SohFree(pairs) && forall i :: 0 <= i < |pairs| ==> !StartsTrailer(pairs[i])
    requires SOH !in last && StartsTrailer(last)
    ensures Frame(raw, Joined(pairs + [last]) + rest) == (raw + Joined(pairs + [last]), rest)
    decreases |pairs|
  {
    hide Contains, StartsTrailer, Joined;
    var all := pairs + [last];
    var pair, tail := all[0], all[1..];
    JoinedFirst(all);
    var stream := Joined(all) + rest;
    assert stream == pair + [SOH] + (Joined(tail) + rest);
    IndexOfFirst(pair, SOH, Joined(tail) + rest);
    assert stream[..|pair| + 1] == pair + [SOH] && stream[|pair| + 1..] == Joined(tail) + rest;
    MarkerArrives(raw, pair);
    var longer := raw + stream[..|pair| + 1];
    assert longer == raw + pair + [SOH];
    if pairs == [] {
      JoinedNone();
      assert tail == [];
      assert Joined(tail) + rest == rest;
      assert longer == raw + Joined(all);
    } else {
      assert tail == pairs[1..] + [last];
      FrameTakes(longer, pairs[1..], last, rest);
      assert longer + Joined(tail) == raw + Joined(all);
    }
  }

  lemma {:induction false} OnlyTenStartsTrailer(tag: int, value: string)
    requires IsInt64(tag)
    ensures StartsTrailer(Pair(tag, value)) <==> tag == 10
  {
    hide FormatInt, ScanInt;
    var name, pair := FormatInt(tag), Pair(tag, value);
    FormatIntPlain(tag);
    FormatIntPlain(10);
    ScanFormat(tag);
    ScanFormat(10);
    TenInDigits();
    assert pair == name + ['='] + value;
    if StartsTrailer(pair) {
      assert pair[0] == '1' && pair[1] == '0' && pair[2] == '=';
      assert |name| == 2;
      assert name == ['1', '0'];
    }
  }

  lemma {:induction false} TenInDigits()
    ensures FormatInt(10) == ['1', '0']
  {
    assert Digits(10) == Digits(1) + [Digit(0)];
  }

  ghost predicate NoTrailer(pairs: seq<string>) {
    forall i :: 0 <= i < |pairs| ==> !StartsTrailer(pairs[i])
  }

  lemma {:induction false} FieldPairsNoTrailer(fields: map<int, string>, keys: seq<int>)
    requires InUse(fields, keys)
    requires forall k :: k in fields ==> !Reserved(k) && IsInt64(k)
    ensures NoTrailer(FieldPairs(fields, keys))
  {
    hide Pair, StartsTrailer;
    if keys != [] {
      var n := |keys| - 1;
      FieldPairsNoTrailer(fields, keys[..n]);
      OnlyTenStartsTrailer(keys[n], fields[keys[n]]);
    }
  }

  lemma {:induction false} LeadingPairsNoTrailer(m: Message, keys: seq<int>)
    requires WellFormed(m) && InUse(m.fields, keys)
    ensures NoTrailer(LeadingPairs(m, keys))
  {
    hide Pair, FormatInt, StartsTrailer, FieldPairs;
    FieldPairsNoTrailer(m.fields, keys);
    OnlyTenStartsTrailer(8, m.beginString);
    OnlyTenStartsTrailer(9, FormatInt(BodyLengthOf(m, keys)));
    OnlyTenStartsTrailer(35, m.msgType);
    OnlyTenStartsTrailer(49, m.senderCompId);
    OnlyTenStartsTrailer(56, m.targetCompId);
    OnlyTenStartsTrailer(34, FormatInt(m.msgSeqNum));
    OnlyTenStartsTrailer(52, m.sendingTime);
  }

  /** One encoded message at the head of a stream is one frame. */
  lemma {:induction false} FrameIsMessage(m: Message, keys: seq<int>, rest: string)
    requires WellFormed(m) && FieldOrder(m.fields, keys)
    ensures
      var stream := Encoded(m, keys) + rest;
      var k := IndexOf(stream, SOH);
      k < |stream| && Frame(stream[..k + 1], stream[k + 1..]) == (Encoded(m, keys), rest)
  {
    hide HeaderPairs, BodyPairs, Joined, ChecksumOf, Summed, Pair, Frame, Contains, IndexOf, StartsTrailer;
    var leading := LeadingPairs(m, keys);
    var check := Pair(10, ChecksumOf(Summed(m, keys)));
    var all := leading + [check];
    LeadingPairsSohFree(m, keys);
    LeadingPairsNoTrailer(m, keys);
    HeaderPairsSohFree(m, BodyLengthOf(m, keys));
    ChecksumSohFree(Summed(m, keys));
    PairIsSohFree(10, ChecksumOf(Summed(m, keys)));
    OnlyTenStartsTrailer(10, ChecksumOf(Summed(m, keys)));
    var first, others := leading[0], leading[1..];
    JoinedFirst(all);
    assert all[1..] == others + [check];
    FirstPairHasNoMarker(first);
    var stream, tail := Encoded(m, keys) + rest, Joined(all[1..]) + rest;
    assert stream == first + [SOH] + tail;
    IndexOfFirst(first, SOH, tail);
    assert stream[..|first| + 1] == first + [SOH] && stream[|first| + 1..] == tail;
    FrameTakes(first + [SOH], others, check, rest);
  }

  /** A message as it is sent: with its fields' tags in order. */
  datatype Sent = Sent(message: Message, keys: seq<int>)

  ghost predicate Sendable(sent: seq<Sent>) {
    forall i :: 0 <= i < |sent| ==>
      && WellFormed(sent[i].message) && FieldOrder(sent[i].message.fields, sent[i].keys)
      && IsInt64(BodyLengthOf(sent[i].message, sent[i].keys))
  }

  ghost function Stream(sent: seq<Sent>): string
    requires Sendable(sent)
  {
    if sent == [] then [] else Encoded(sent[0].message, sent[0].keys) + Stream(sent[1..])
  }

  /** The messages up to and including the first logout, their lengths filled in. */
  ghost function UpToLogout(sent: seq<Sent>): seq<Message>
    requires Sendable(sent)
  {
    if sent == [] then []
    else
      var m := sent[0].message.(bodyLength := BodyLengthOf(sent[0].message, sent[0].keys));
      if m.msgType == "5" then [m] else [m] + UpToLogout(sent[1..])
  }

  /** What was sent is what is received, in order, up to the first logout. */
  lemma {:induction false} StreamIsReceived(sent: seq<Sent>)
    requires Sendable(sent)
    ensures Received(Stream(sent)) == UpToLogout(sent)
  {
    hide Encoded, Frame, Decoded, WellFormed, FieldOrder, BodyLengthOf, Received;
    if sent == [] {
      NothingReceived();
    } else {
      var m, keys := sent[0].message, sent[0].keys;
      StreamIsReceived(sent[1..]);
      FrameIsMessage(m, keys, Stream(sent[1..]));
      DecodeEncoded(m, keys);
      ReceivedStep(Stream(sent), IndexOf(Stream(sent), SOH));
    }
  }

  lemma {:induction false} NothingReceived()
    ensures Received([]) == []
  {
  }

  // ----- the checksum

  /** CheckSum as FIX 4.4 defines it: the sum of all bytes before tag 10, length included. */
  function StandardChecksum(m: Message, keys: seq<int>): string
    requires InUse(m.fields, keys)
  {
    ChecksumOf(Joined(LeadingPairs(m, keys)))
  }

  lemma {:induction false} CharSumConcat(a: string, b: string)
    ensures CharSum(a + b) == CharSum(a) + CharSum(b)
    decreases |b|
  {
    if b == [] {
      assert a + b == a;
    } else {
      assert (a + b)[..|a + b| - 1] == a + b[..|b| - 1];
      CharSumConcat(a, b[..|b| - 1]);
    }
  }

  lemma {:induction false} ThreeDigitsInjective(a: nat, b: nat)
    requires a < 1000 && b < 1000
    ensures ThreeDigits(a) == ThreeDigits(b) <==> a == b
  {
    if ThreeDigits(a) == ThreeDigits(b) {
      hide Digit;
      DigitInjective(a / 100, b / 100);
      DigitInjective(a / 10 % 10, b / 10 % 10);
      DigitInjective(a % 10, b % 10);
      assert ThreeDigits(a)[0] == ThreeDigits(b)[0];
      assert ThreeDigits(a)[1] == ThreeDigits(b)[1];
      assert ThreeDigits(a)[2] == ThreeDigits(b)[2];
      DecimalPlaces(a);
      DecimalPlaces(b);
    }
  }

  lemma {:induction false} DecimalPlaces(n: nat)
    ensures n == 100 * (n / 100) + 10 * (n / 10 % 10) + n % 10
  {
    var tens := n / 10;
    assert n == 10 * tens + n % 10;
    assert tens == 10 * (tens / 10) + tens % 10;
    HundredsOf(n, tens / 10, 10 * (tens % 10) + n % 10);
  }

  lemma {:induction false} HundredsOf(n: nat, q: nat, r: nat)
    requires n == 100 * q + r && r < 100
    ensures n / 100 == q
  {
  }

  lemma {:induction false} SameRemainder(a: nat, b: nat, c: nat, d: nat)
    requires b + d == a + c && d < 256
    ensures a % 256 == b % 256 <==> c % 256 == d
  {
  }

  lemma {:induction false} DigitInjective(a: nat, b: nat)
    requires a < 10 && b < 10
    ensures Digit(a) == Digit(b) <==> a == b
  {
    assert Digit(a) as int == '0' as int + a;
    assert Digit(b) as int == '0' as int + b;
  }

  lemma {:induction false} HeaderSum(m: Message, length: int)
    ensures CharSum(Joined(HeaderPairs(m, length)))
         == CharSum(Pair(8, m.beginString)) + SOH as int
          + CharSum(FormatInt(9) + ['=']) + CharSum(FormatInt(length)) + SOH as int
  {
    hide FormatInt, CharSum;
    var first, second := Pair(8, m.beginString), Pair(9, FormatInt(length));
    var header := HeaderPairs(m, length);
    assert header[..1] == [first];
    JoinedOne(first);
    assert Joined(header) == first + [SOH] + second + [SOH];
    CharSumConcat(first + [SOH] + second, [SOH]);
    CharSumConcat(first + [SOH], second);
    CharSumConcat(first, [SOH]);
    CharSumConcat(FormatInt(9) + ['='], FormatInt(length));
    CharSumOne(SOH);
  }

  lemma {:induction false} CharSumOne(c: char)
    ensures CharSum([c]) == c as int
  {
    assert [c][..|[c]| - 1] == [];
    assert CharSum([]) == 0;
  }

  /** The checksum sent is the standard's exactly when the digits of the body length add
      up, as characters, to that of the placeholder `0`. */
  lemma {:induction false} ChecksumIsStandardIff(m: Message, keys: seq<int>)
    requires InUse(m.fields, keys)
    ensures ChecksumOf(Summed(m, keys)) == StandardChecksum(m, keys)
        <==> CharSum(Digits(BodyLengthOf(m, keys))) % 256 == '0' as int
  {
    hide Digits, CharSum, Joined, HeaderPairs, BodyPairs, ThreeDigits, BodyLengthOf;
    var length, body := BodyLengthOf(m, keys), BodyPairs(m, keys);
    JoinedConcat(HeaderPairs(m, 0), body);
    JoinedConcat(HeaderPairs(m, length), body);
    CharSumConcat(Joined(HeaderPairs(m, 0)), Joined(body));
    CharSumConcat(Joined(HeaderPairs(m, length)), Joined(body));
    HeaderSum(m, 0);
    HeaderSum(m, length);
    ZeroInDigits();
    var sent, standard := CharSum(Summed(m, keys)), CharSum(Joined(LeadingPairs(m, keys)));
    assert standard + '0' as int == sent + CharSum(Digits(length));
    SameRemainder(sent, standard, CharSum(Digits(length)), '0' as int);
    ThreeDigitsInjective(sent % 256, standard % 256);
  }

  lemma {:induction false} ZeroInDigits()
    ensures CharSum(FormatInt(0)) == '0' as int
  {
    CharSumOne('0');
    assert FormatInt(0) == ['0'];
  }

  lemma {:induction false} DigitsSum(n: nat, size: nat, limit: nat)
    requires limit == Power10(size) && n < limit && size > 0
    ensures |Digits(n)| <= size
    ensures 48 * |Digits(n)| <= CharSum(Digits(n)) <= 57 * |Digits(n)|
    decreases size
  {
    if n < 10 {
      CharSumOne(Digit(n));
    } else {
      assert size > 1;
      DigitsSum(n / 10, size - 1, Power10(size - 1));
      var ds := Digits(n);
      assert ds[..|ds| - 1] == Digits(n / 10);
    }
  }

  function Power10(size: nat): nat {
    if size == 0 then 1 else 10 * Power10(size - 1)
  }

  /** So no message with a body under 100000 bytes carries the standard's checksum. */
  lemma {:induction false} ShortChecksumsDiffer(m: Message, keys: seq<int>)
    requires InUse(m.fields, keys) && BodyLengthOf(m, keys) < 100000
    ensures ChecksumOf(Summed(m, keys)) != StandardChecksum(m, keys)
  {
    hide ChecksumOf, Summed, StandardChecksum, BodyLengthOf;
    var length := BodyLengthOf(m, keys);
    BodyIsLong(m, keys);
    ChecksumIsStandardIff(m, keys);
    FifthPower();
    DigitsSum(length, 5, 100000);
    TwoDigits(length);
  }

  lemma {:induction false} FifthPower()
    ensures Power10(5) == 100000
  {
    assert Power10(1) == 10;
    assert Power10(3) == 1000;
  }

  lemma {:induction false} TwoDigits(n: nat)
    requires n >= 10
    ensures |Digits(n)| >= 2
  {
    DigitsRoundTrip(n / 10);
  }

  lemma {:induction false} BodyIsLong(m: Message, keys: seq<int>)
    requires InUse(m.fields, keys)
    ensures BodyLengthOf(m, keys) >= 10
  {
    hide FieldPairs;
    var fixed := FixedPairs(m);
    JoinedConcat(fixed, FieldPairs(m.fields, keys));
    JoinedAtLeast(fixed);
  }

  lemma {:induction false} JoinedAtLeast(pairs: seq<string>)
    requires forall i :: 0 <= i < |pairs| ==> pairs[i] != []
    ensures |Joined(pairs)| >= 2 * |pairs|
  {
    if pairs != [] {
      JoinedAtLeast(pairs[..|pairs| - 1]);
    }
  }
}
