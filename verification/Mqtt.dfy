/**
 MQTT framing (crates/scanerr-protocol/src/mqtt.rs): the remaining-length field
 of section 2.2.3 of MQTT Version 3.1.1, the packets the probe sends, and the
 walker that parses a growing buffer anew after every read.
 */
module Mqtt {
  import opened Text
  import opened Ordering

  type Byte = b: int | 0 <= b < 256

  const MAX_LEN: nat := 268_435_455

  // ─── The remaining-length field ───

  function EncodeLen(len: nat): seq<Byte> {
    if len < 128 then [len] else [128 + len % 128] + EncodeLen(len / 128)
  }

  /** Base 128, low digit first; the top bit of a byte is no part of the number. */
  function Value(bytes: seq<Byte>): nat {
    if bytes == [] then 0 else bytes[0] % 128 + 128 * Value(bytes[1..])
  }

  /** The end of the field at `start`, its first `k` bytes being continuation bytes. */
  function FieldEnd(data: seq<Byte>, start: nat, k: nat): Option<nat>
    requires k <= 4
    decreases 4 - k
  {
    if k == 4 || start + k >= |data| then None
    else if data[start + k] < 128 then Some(start + k + 1)
    else FieldEnd(data, start, k + 1)
  }

  lemma {:induction false} FieldEndBounds(data: seq<Byte>, start: nat, k: nat)
    requires k <= 4
    ensures FieldEnd(data, start, k).Some? ==>
      var end := FieldEnd(data, start, k).value;
      && start + k < end <= |data| && end <= start + 4
      && data[end - 1] < 128
      && forall i :: start + k <= i < end - 1 ==> data[i] >= 128
    decreases 4 - k
  {
    if k < 4 && start + k < |data| && data[start + k] >= 128 {
      FieldEndBounds(data, start, k + 1);
    }
  }

  datatype Field = Field(value: nat, end: nat)

  function DecodeLen(data: seq<Byte>, start: nat): Option<Field> {
    var end := FieldEnd(data, start, 0);
    FieldEndBounds(data, start, 0);
    if end.None? then None else Some(Field(Value(data[start..end.value]), end.value))
  }

  lemma {:induction false} ValueSnoc(bytes: seq<Byte>, b: Byte)
    ensures Value(bytes + [b]) == Value(bytes) + b % 128 * Pow128(|bytes|)
  {
    if bytes != [] {
      assert (bytes + [b])[1..] == bytes[1..] + [b];
      ValueSnoc(bytes[1..], b);
      Exchange(b % 128, Pow128(|bytes| - 1));
    } else {
      assert (bytes + [b])[1..] == [];
      assert Value([]) == 0;
    }
  }

  lemma Exchange(x: nat, p: nat)
    ensures 128 * (x * p) == x * (128 * p)
  {
  }

  function Pow128(k: nat): nat {
    if k == 0 then 1 else 128 * Pow128(k - 1)
  }

  lemma Powers()
    ensures Pow128(0) == 1 && Pow128(1) == 128 && Pow128(2) == 128 * 128
    ensures Pow128(3) == 128 * 128 * 128 && Pow128(4) == 128 * 128 * 128 * 128
  {
    assert Pow128(1) == 128 * Pow128(0);
    assert Pow128(2) == 128 * Pow128(1);
    assert Pow128(3) == 128 * Pow128(2);
    assert Pow128(4) == 128 * Pow128(3);
  }

  lemma ValueStep(data: seq<Byte>, start: nat, k: nat)
    requires start + k < |data|
    ensures Value(data[start..start + k + 1]) ==
      Value(data[start..start + k]) + data[start + k] % 128 * Pow128(k)
  {
    ValueSnoc(data[start..start + k], data[start + k]);
    assert data[start..start + k + 1] == data[start..start + k] + [data[start + k]];
  }

  lemma PowerStep(k: nat)
    requires k < 4
    ensures Pow128(k + 1) == Pow128(k) * 128
    ensures Pow128(k + 1) > 128 * 128 * 128 <==> k == 3
  {
    Powers();
  }

  method ReadLen(data: seq<Byte>, start: nat) returns (r: Option<Field>)
    ensures r == DecodeLen(data, start)
    ensures r.Some? ==> start < r.value.end <= |data| && r.value.end <= start + 4
  {
    var multiplier: nat := 1;
    var value: nat := 0;
    var pos := start;
    ghost var k := 0;
    FieldEndBounds(data, start, 0);
    assert start <= |data| ==> data[start..start] == [];
    assert Value([]) == 0;
    Powers();
    hide Value, Pow128;
    while true
      invariant 0 <= k <= 3 && pos == start + k && multiplier == Pow128(k)
      invariant FieldEnd(data, start, 0) == FieldEnd(data, start, k)
      invariant pos <= |data| ==> value == Value(data[start..pos])
      decreases 4 - k
    {
      if pos >= |data| {
        return None;
      }
      var byte := data[pos];
      ValueStep(data, start, k);
      PowerStep(k);
      value := value + byte % 128 * multiplier;
      pos := pos + 1;
      if byte < 128 {
        return Some(Field(value, pos));
      }
      multiplier := multiplier * 128;
      k := k + 1;
      if multiplier > 128 * 128 * 128 {
        return None;
      }
    }
  }

  method PushLen(packet: seq<Byte>, len: nat) returns (r: seq<Byte>)
    ensures r == packet + EncodeLen(len)
  {
    r := packet;
    var left := len;
    while true
      invariant r + EncodeLen(left) == packet + EncodeLen(len)
      decreases left
    {
      var byte: Byte := left % 128;
      left := left / 128;
      if left > 0 {
        byte := byte + 128;
      }
      r := r + [byte];
      if left == 0 {
        break;
      }
    }
  }

  /** At most four bytes exactly up to the largest length the standard allows. */
  lemma {:induction false} EncodeShape(len: nat, k: nat)
    ensures 0 < |EncodeLen(len)| && (|EncodeLen(len)| <= k + 1 <==> len < Pow128(k + 1))
    ensures EncodeLen(len)[|EncodeLen(len)| - 1] < 128
    ensures forall i :: 0 <= i < |EncodeLen(len)| - 1 ==> EncodeLen(len)[i] >= 128
    ensures Value(EncodeLen(len)) == len
    decreases len, k
  {
    PowPositive(k);
    if len >= 128 {
      EncodeShape(len / 128, if k == 0 then 0 else k - 1);
      assert EncodeLen(len)[1..] == EncodeLen(len / 128);
    } else {
      assert Value([len]) == len % 128 + 128 * Value([]);
    }
  }

  lemma {:induction false} FieldEndFound(data: seq<Byte>, start: nat, k: nat, end: nat)
    requires k <= 4 && start + k < end <= |data|
    requires data[end - 1] < 128 && forall i :: start + k <= i < end - 1 ==> data[i] >= 128
    ensures FieldEnd(data, start, k) == if end <= start + 4 then Some(end) else None
    decreases 4 - k
  {
    if k < 4 && start + k < end - 1 {
      FieldEndFound(data, start, k + 1, end);
    }
  }

  /** The bytes of every length the standard allows: seven bits each, low bits first, the top bit set on all but the last. */
  lemma EncodedBytes(len: nat)
    ensures EncodeLen(len) ==
      if len < 128 then [len]
      else if len < 16_384 then [128 + len % 128, len / 128]
      else if len < 2_097_152 then [128 + len % 128, 128 + len / 128 % 128, len / 16_384]
      else if len <= 268_435_455 then
        [128 + len % 128, 128 + len / 128 % 128, 128 + len / 16_384 % 128, len / 2_097_152]
      else EncodeLen(len)
  {
    hide EncodeLen;
    EncodeOnce(len);
    if len >= 128 {
      Quotients(len);
      EncodeOnce(len / 128);
      EncodeOnce(len / 16_384);
      EncodeOnce(len / 2_097_152);
    }
  }

  lemma Quotients(len: nat)
    ensures len / 128 / 128 == len / 16_384 && len / 16_384 / 128 == len / 2_097_152
    ensures (len / 128 < 128 <==> len < 16_384) && (len / 16_384 < 128 <==> len < 2_097_152)
    ensures len / 2_097_152 < 128 <==> len <= 268_435_455
  {
  }

  lemma EncodeOnce(len: nat)
    ensures EncodeLen(len) == if len < 128 then [len] else [128 + len % 128] + EncodeLen(len / 128)
  {
  }

  /**
   Round trip: in any surroundings the decoder gives back the encoded length and
   where it ends, exactly for the lengths the standard allows; others it rejects.
   */
  lemma DecodeEncode(pre: seq<Byte>, len: nat, post: seq<Byte>)
    ensures DecodeLen(pre + EncodeLen(len) + post, |pre|) ==
      if len <= MAX_LEN then Some(Field(len, |pre| + |EncodeLen(len)|)) else None
  {
    var code := EncodeLen(len);
    var data := pre + code + post;
    Powers();
    EncodeShape(len, 3);
    var end := |pre| + |code|;
    assert data[|pre|..end] == code;
    assert forall i :: |pre| <= i < end ==> data[i] == code[i - |pre|];
    FieldEndFound(data, |pre|, 0, end);
  }

  lemma Digits(d: nat, w: nat)
    requires d < 128
    ensures (d + 128 * w) % 128 == d && (d + 128 * w) / 128 == w
  {
  }

  lemma EncodeCons(b: Byte, w: nat)
    requires b >= 128 && w > 0
    ensures EncodeLen(b % 128 + 128 * w) == [b] + EncodeLen(w)
  {
    Digits(b % 128, w);
    assert b == 128 + b % 128;
  }

  lemma {:induction false} EncodeValue(bytes: seq<Byte>)
    requires bytes != [] && bytes[|bytes| - 1] < 128
    requires forall i :: 0 <= i < |bytes| - 1 ==> bytes[i] >= 128
    ensures EncodeLen(Value(bytes)) == bytes <==> (|bytes| == 1 || bytes[|bytes| - 1] != 0)
    ensures bytes[|bytes| - 1] != 0 ==> Value(bytes) > 0
  {
    if |bytes| == 1 {
      assert Value(bytes[1..]) == 0;
    } else {
      EncodeValue(bytes[1..]);
      var w := Value(bytes[1..]);
      assert bytes == [bytes[0]] + bytes[1..];
      hide Value, EncodeLen;
      ValueCons(bytes);
      if w > 0 {
        EncodeCons(bytes[0], w);
        assert EncodeLen(Value(bytes))[1..] == EncodeLen(w);
      } else {
        EncodeSmall(bytes[0] % 128);
      }
    }
  }

  lemma ValueCons(bytes: seq<Byte>)
    requires bytes != []
    ensures Value(bytes) == bytes[0] % 128 + 128 * Value(bytes[1..])
  {
  }

  lemma EncodeSmall(n: nat)
    requires n < 128
    ensures EncodeLen(n) == [n]
  {
  }

  /** The other way round: a decoded field is the encoding of its value exactly when it has no idle zero byte. */
  lemma EncodeDecode(data: seq<Byte>, start: nat)
    requires DecodeLen(data, start).Some?
    ensures var f := DecodeLen(data, start).value;
      && start < f.end <= |data| && f.end <= start + 4 && f.value <= MAX_LEN
      && (EncodeLen(f.value) == data[start..f.end] <==> (f.end == start + 1 || data[f.end - 1] != 0))
  {
    FieldEndBounds(data, start, 0);
    var f := DecodeLen(data, start).value;
    EncodeValue(data[start..f.end]);
    Powers();
    ValueBound(data[start..f.end], 4);
  }

  lemma {:induction false} ValueBound(bytes: seq<Byte>, k: nat)
    requires |bytes| <= k
    ensures Value(bytes) < Pow128(k)
  {
    if bytes != [] {
      ValueBound(bytes[1..], k - 1);
    } else {
      PowPositive(k);
    }
  }

  lemma PowPositive(k: nat)
    ensures Pow128(k) > 0
  {
  }

  lemma {:induction false} FieldEndStable(data: seq<Byte>, more: seq<Byte>, start: nat, k: nat)
    requires k <= 4 && data <= more && FieldEnd(data, start, k).Some?
    ensures FieldEnd(more, start, k) == FieldEnd(data, start, k)
    decreases 4 - k
  {
    if data[start + k] >= 128 {
      FieldEndStable(data, more, start, k + 1);
    }
  }

  /** A field once complete reads the same however the buffer grows. */
  lemma DecodeStable(data: seq<Byte>, more: seq<Byte>, start: nat)
    requires data <= more && DecodeLen(data, start).Some?
    ensures DecodeLen(more, start) == DecodeLen(data, start)
    ensures start < DecodeLen(data, start).value.end <= |data|
  {
    FieldEndStable(data, more, start, 0);
    FieldEndBounds(data, start, 0);
    var end := FieldEnd(data, start, 0).value;
    assert more[start..end] == data[start..end];
  }

  // ─── The packet walker ───

  function Word(hi: Byte, lo: Byte): nat { 256 * hi + lo }

  /** The topic of a PUBLISH packet headed at `pos` with its body at `body`; it may reach past the packet. */
  function TopicAt(utf8: seq<Byte> -> Option<string>, data: seq<Byte>, pos: nat, body: nat, len: nat): seq<string>
    requires pos < body && body + len <= |data|
  {
    if data[pos] / 16 != 3 || len < 2 then []
    else
      var n := Word(data[body], data[body + 1]);
      if body + 2 + n > |data| then []
      else match utf8(data[body + 2..body + 2 + n])
        case None => []
        case Some(topic) => [topic]
  }

  /** The topics `parse_topics` pushes, from `pos` on. */
  function Topics(utf8: seq<Byte> -> Option<string>, data: seq<Byte>, pos: nat): seq<string>
    decreases |data| - pos
  {
    if pos + 2 > |data| then []
    else
      match DecodeLen(data, pos + 1)
      case None => []
      case Some(Field(len, body)) =>
        DecodeStable(data, data, pos + 1);
        if body + len > |data| then []
        else TopicAt(utf8, data, pos, body, len) + Topics(utf8, data, body + len)
  }

  lemma TopicsStep(utf8: seq<Byte> -> Option<string>, data: seq<Byte>, pos: nat)
    requires pos + 2 <= |data| && DecodeLen(data, pos + 1).Some?
    ensures var Field(len, body) := DecodeLen(data, pos + 1).value;
      pos < body <= |data| &&
      Topics(utf8, data, pos) ==
        if body + len > |data| then []
        else TopicAt(utf8, data, pos, body, len) + Topics(utf8, data, body + len)
  {
    DecodeStable(data, data, pos + 1);
  }

  lemma TopicsEnd(utf8: seq<Byte> -> Option<string>, data: seq<Byte>, pos: nat)
    requires pos + 2 > |data| || DecodeLen(data, pos + 1).None?
    ensures Topics(utf8, data, pos) == []
  {
  }

  method ParseTopics(utf8: seq<Byte> -> Option<string>, data: seq<Byte>, topics: seq<string>)
    returns (r: seq<string>)
    ensures r == topics + Topics(utf8, data, 0)
  {
    hide Topics, DecodeLen;
    r := topics;
    var pos := 0;
    ghost var left := Topics(utf8, data, 0);
    if |data| == 0 {
      TopicsEnd(utf8, data, 0);
    }
    while pos < |data|
      invariant 0 <= pos <= |data|
      invariant left == Topics(utf8, data, pos)
      invariant pos == |data| ==> left == []
      invariant r + left == topics + Topics(utf8, data, 0)
      decreases |data| - pos
    {
      if pos + 2 > |data| {
        TopicsEnd(utf8, data, pos);
        break;
      }
      var kind := data[pos] / 16 % 16;
      var field := ReadLen(data, pos + 1);
      if field.None? {
        TopicsEnd(utf8, data, pos);
        break;
      }
      TopicsStep(utf8, data, pos);
      ghost var head := pos;
      var remaining := field.value.value;
      pos := field.value.end;
      if pos + remaining > |data| {
        break;
      }
      ghost var had := r;
      if kind == 3 {
        if remaining >= 2 {
          var n := Word(data[pos], data[pos + 1]);
          if pos + 2 + n <= |data| {
            var topic := utf8(data[pos + 2..pos + 2 + n]);
            if topic.Some? {
              r := r + [topic.value];
            }
          }
        }
      }
      left := Topics(utf8, data, pos + remaining);
      assert r == had + TopicAt(utf8, data, head, pos, remaining);
      Regroup(had, TopicAt(utf8, data, head, pos, remaining), left, []);
      pos := pos + remaining;
      if pos == |data| {
        TopicsEnd(utf8, data, pos);
      }
    }
  }

  lemma TopicStable(utf8: seq<Byte> -> Option<string>, data: seq<Byte>, more: seq<Byte>, pos: nat, body: nat, len: nat)
    requires data <= more && pos < body && body + len <= |data|
    ensures TopicAt(utf8, data, pos, body, len) == [] ||
            TopicAt(utf8, data, pos, body, len) == TopicAt(utf8, more, pos, body, len)
  {
    if len >= 2 {
      var n := Word(data[body], data[body + 1]);
      if body + 2 + n <= |data| {
        assert more[body + 2..body + 2 + n] == data[body + 2..body + 2 + n];
      }
    }
  }

  /** Topics found in a prefix of the stream are found in every longer part of it. */
  lemma {:induction false} TopicsGrow(utf8: seq<Byte> -> Option<string>, data: seq<Byte>, more: seq<Byte>, pos: nat)
    requires data <= more
    ensures forall t :: t in Topics(utf8, data, pos) ==> t in Topics(utf8, more, pos)
    decreases |data| - pos
  {
    hide TopicAt, DecodeLen;
    if pos + 2 <= |data| && DecodeLen(data, pos + 1).Some? {
      DecodeStable(data, more, pos + 1);
      var Field(len, body) := DecodeLen(data, pos + 1).value;
      TopicsStep(utf8, data, pos);
      if body + len <= |data| {
        TopicsStep(utf8, more, pos);
        TopicStable(utf8, data, more, pos, body, len);
        TopicsGrow(utf8, data, more, body + len);
      }
    } else {
      TopicsEnd(utf8, data, pos);
    }
  }

  /** The bytes of the reads up to the first empty one, where the loop stops. */
  function Received(chunks: seq<seq<Byte>>): seq<Byte> {
    if chunks == [] || chunks[0] == [] then [] else chunks[0] + Received(chunks[1..])
  }

  /** The chunks one after the other. */
  function Joined(chunks: seq<seq<Byte>>): seq<Byte> {
    if chunks == [] then [] else Joined(chunks[..|chunks| - 1]) + chunks[|chunks| - 1]
  }

  lemma {:induction false} JoinedCons(chunks: seq<seq<Byte>>)
    requires chunks != []
    ensures Joined(chunks) == chunks[0] + Joined(chunks[1..])
  {
    var n := |chunks| - 1;
    if n > 0 {
      JoinedCons(chunks[..n]);
      assert chunks[..n][1..] == chunks[1..][..n - 1];
    }
  }

  /** What is received is every chunk before the first empty one. */
  lemma {:induction false} ReceivedJoined(chunks: seq<seq<Byte>>, k: nat)
    requires k <= |chunks| && (k < |chunks| ==> chunks[k] == [])
    requires forall i :: 0 <= i < k ==> chunks[i] != []
    ensures Received(chunks) == Joined(chunks[..k])
    decreases k
  {
    if k > 0 {
      ReceivedJoined(chunks[1..], k - 1);
      JoinedCons(chunks[..k]);
      assert chunks[..k][1..] == chunks[1..][..k - 1];
    }
  }

  /**
   The collect loop. However the stream is cut into reads, the result is the
   sorted set of the topics of one parse of all of it.
   */
  method Collect(utf8: seq<Byte> -> Option<string>, chunks: seq<seq<Byte>>) returns (subscriptions: seq<string>)
    ensures subscriptions == SortedSet(Topics(utf8, Received(chunks), 0))
  {
    var collected: seq<Byte> := [];
    subscriptions := [];
    hide Topics;
    TopicsEnd(utf8, [], 0);
    var i := 0;
    while i < |chunks|
      invariant 0 <= i <= |chunks|
      invariant collected + Received(chunks[i..]) == Received(chunks)
      invariant forall t :: t in subscriptions <==> t in Topics(utf8, collected, 0)
    {
      if chunks[i] == [] {
        break;
      }
      ghost var before := collected;
      Regroup(collected, chunks[i], Received(chunks[i + 1..]), []);
      assert chunks[i..][1..] == chunks[i + 1..];
      collected := collected + chunks[i];
      TopicsGrow(utf8, before, collected, 0);
      subscriptions := ParseTopics(utf8, collected, subscriptions);
      i := i + 1;
    }
    assert collected == Received(chunks);
    SortedSetExtensional(subscriptions, Topics(utf8, collected, 0));
    SortedSorts(subscriptions);
    SortingKeepsSet(Sorted(subscriptions), subscriptions);
    subscriptions := Dedup(Sorted(subscriptions));
  }

  /** A packet: type and flags, and the body whose length its header gives. */
  datatype Packet = Packet(kind: nat, flags: nat, body: seq<Byte>)

  /** The length field can give the body's length, and a PUBLISH body holds its topic. */
  predicate WellFormed(p: Packet) {
    && p.kind < 16 && p.flags < 16 && |p.body| <= MAX_LEN
    && (p.kind == 3 ==> |p.body| >= 2 && 2 + 256 * (p.body[0] as int) + p.body[1] as int <= |p.body|)
  }

  type WholePacket = p: Packet | WellFormed(p) witness Packet(0, 0, [])

  function Frame(p: Packet): seq<Byte>
    requires p.kind < 16 && p.flags < 16
  {
    [16 * p.kind + p.flags] + EncodeLen(|p.body|) + p.body
  }

  function Frames(ps: seq<WholePacket>): seq<Byte> {
    if ps == [] then [] else Frame(ps[0]) + Frames(ps[1..])
  }

  /** The topic of a PUBLISH packet, if its bytes are valid text. */
  function TopicOf(utf8: seq<Byte> -> Option<string>, p: WholePacket): seq<string> {
    if p.kind != 3 then []
    else match utf8(p.body[2..2 + 256 * (p.body[0] as int) + p.body[1] as int])
      case None => []
      case Some(topic) => [topic]
  }

  function Published(utf8: seq<Byte> -> Option<string>, ps: seq<WholePacket>): seq<string> {
    if ps == [] then [] else TopicOf(utf8, ps[0]) + Published(utf8, ps[1..])
  }

  lemma FrameDecodes(pre: seq<Byte>, p: WholePacket, post: seq<Byte>)
    ensures var data := pre + Frame(p) + post;
      var body := |pre| + 1 + |EncodeLen(|p.body|)|;
      && DecodeLen(data, |pre| + 1) == Some(Field(|p.body|, body))
      && |pre| + 2 <= body && body + |p.body| == |pre + Frame(p)| <= |data|
      && data[|pre|] == 16 * p.kind + p.flags
      && data[body..body + |p.body|] == p.body
  {
    var head: seq<Byte> := [16 * p.kind + p.flags];
    var code := EncodeLen(|p.body|);
    var data := pre + Frame(p) + post;
    assert data == (pre + head) + code + (p.body + post);
    DecodeEncode(pre + head, |p.body|, p.body + post);
    EncodeShape(|p.body|, 3);
    assert data == (pre + head + code) + p.body + post;
    Inside(pre + head + code, p.body, post);
  }

  lemma Inside(pre: seq<Byte>, part: seq<Byte>, post: seq<Byte>)
    ensures (pre + part + post)[|pre|..|pre| + |part|] == part
  {
  }

  lemma SliceOfSlice(data: seq<Byte>, a: nat, b: nat, i: nat, j: nat)
    requires a <= b <= |data| && i <= j <= b - a
    ensures data[a..b][i..j] == data[a + i..a + j]
  {
    forall k | 0 <= k < j - i ensures data[a..b][i..j][k] == data[a + i..a + j][k] {
      assert data[a..b][i..j][k] == data[a..b][i + k];
    }
  }

  lemma FrameTopic(utf8: seq<Byte> -> Option<string>, data: seq<Byte>, pos: nat, body: nat, p: WholePacket)
    requires pos < body && body + |p.body| <= |data|
    requires data[pos] == 16 * p.kind + p.flags
    requires data[body..body + |p.body|] == p.body
    ensures TopicAt(utf8, data, pos, body, |p.body|) == TopicOf(utf8, p)
  {
    if p.kind == 3 {
      var n := Word(p.body[0], p.body[1]);
      assert data[body] == p.body[0] && data[body + 1] == p.body[1];
      SliceOfSlice(data, body, body + |p.body|, 2, 2 + n);
    }
  }

  /** The walker over a stream of whole packets gives their topics, in order, and nothing else. */
  lemma {:induction false} WalkStream(utf8: seq<Byte> -> Option<string>, pre: seq<Byte>, ps: seq<WholePacket>)
    ensures Topics(utf8, pre + Frames(ps), |pre|) == Published(utf8, ps)
    decreases |ps|
  {
    hide TopicAt, TopicOf, DecodeLen, EncodeLen;
    if ps != [] {
      var data := pre + Frames(ps);
      var next := pre + Frame(ps[0]);
      var post := Frames(ps[1..]);
      Regroup(pre, Frame(ps[0]), post, []);
      assert data == next + post;
      FrameDecodes(pre, ps[0], post);
      FrameTopic(utf8, data, |pre|, |pre| + 1 + |EncodeLen(|ps[0].body|)|, ps[0]);
      WalkStream(utf8, next, ps[1..]);
      hide Topics, Frame;
      TopicsStep(utf8, data, |pre|);
    } else {
      assert pre + Frames(ps) == pre;
      TopicsEnd(utf8, pre, |pre|);
    }
  }

  // ─── SUBSCRIBE and UNSUBSCRIBE ───

  function Sum(bytes: seq<Byte>): nat {
    if bytes == [] then 0 else Sum(bytes[..|bytes| - 1]) + bytes[|bytes| - 1]
  }

  function Hi(n: nat): Byte { n / 256 % 256 }

  function Lo(n: nat): Byte { n % 256 }

  /** The packet id: the bytes of the id added up in 16 bits. */
  method PacketId(id: seq<Byte>) returns (pid: nat)
    ensures pid < 65536 && pid == Sum(id) % 65536
  {
    pid := 0;
    for i := 0 to |id|
      invariant pid == Sum(id[..i]) % 65536
    {
      assert id[..i + 1][..i] == id[..i];
      pid := (pid + id[i]) % 65536;
    }
    assert id[..|id|] == id;
  }

  function SubBody(id: seq<Byte>, topic: seq<Byte>): seq<Byte> {
    [Hi(Sum(id) % 65536), Lo(Sum(id) % 65536), Hi(|topic|), Lo(|topic|)] + topic
  }

  method SubPkt(id: seq<Byte>, topic: seq<Byte>) returns (packet: seq<Byte>)
    ensures packet == Frame(Packet(8, 2, SubBody(id, topic) + [0])) && packet[0] == 0x82
  {
    var remaining := 2 + 2 + |topic| + 1;
    packet := [0x82];
    packet := PushLen(packet, remaining);
    var pid := PacketId(id);
    packet := packet + [Hi(pid)];
    packet := packet + [Lo(pid)];
    packet := packet + [Hi(|topic|)];
    packet := packet + [Lo(|topic|)];
    packet := packet + topic;
    packet := packet + [0x00];
  }

  method UnsubPkt(id: seq<Byte>, topic: seq<Byte>) returns (packet: seq<Byte>)
    ensures packet == Frame(Packet(10, 2, SubBody(id, topic))) && packet[0] == 0xA2
  {
    var remaining := 2 + 2 + |topic|;
    packet := [0xA2];
    packet := PushLen(packet, remaining);
    var pid := PacketId(id);
    packet := packet + [Hi(pid)];
    packet := packet + [Lo(pid)];
    packet := packet + [Hi(|topic|)];
    packet := packet + [Lo(|topic|)];
    packet := packet + topic;
  }

  /** A packet ends exactly where its header says, whenever the length field can give its body's length. */
  lemma Delimits(p: Packet)
    requires p.kind < 16 && p.flags < 16
    ensures var field := DecodeLen(Frame(p), 1);
      && (field.Some? <==> |p.body| <= MAX_LEN)
      && (field.Some? ==> field.value.end + field.value.value == |Frame(p)|)
      && (field.Some? ==> Frame(p)[field.value.end..] == p.body)
  {
    var head: seq<Byte> := [16 * p.kind + p.flags];
    DecodeEncode(head, |p.body|, p.body);
    assert Frame(p)[1 + |EncodeLen(|p.body|)|..] == p.body;
  }

  lemma HiLo(n: nat)
    ensures Word(Hi(n), Lo(n)) == n <==> n < 65536
  {
    var q := n / 256;
    assert n == 256 * q + n % 256 && q == 256 * (q / 256) + q % 256;
  }

  /** In the body of SUBSCRIBE and UNSUBSCRIBE the topic length is right exactly when it fits 16 bits. */
  lemma SubTopic(id: seq<Byte>, topic: seq<Byte>, tail: seq<Byte>)
    ensures var body := SubBody(id, topic) + tail;
      && |body| == 4 + |topic| + |tail|
      && 256 * (body[0] as int) + body[1] as int == Sum(id) % 65536
      && body[4..4 + |topic|] == topic
      && (256 * (body[2] as int) + body[3] as int == |topic| <==> |topic| < 65536)
  {
    var pid := Sum(id) % 65536;
    var fields: seq<Byte> := [Hi(pid), Lo(pid), Hi(|topic|), Lo(|topic|)];
    HiLo(pid);
    HiLo(|topic|);
    Layout(fields, topic, tail);
  }

  lemma Layout(fields: seq<Byte>, topic: seq<Byte>, tail: seq<Byte>)
    requires |fields| == 4
    ensures (fields + topic + tail)[..4] == fields
    ensures (fields + topic + tail)[4..4 + |topic|] == topic
  {
  }
}
