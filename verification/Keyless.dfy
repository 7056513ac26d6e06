/** Keyless messages of g3keymess: requests read off the wire and the responses written
    to it, both framed by the same header and items. */
module Keyless {
  import opened Basics
  import opened Tlv

  datatype Hash = Md5Sha1 | Sha1 | Sha224 | Sha256 | Sha384 | Sha512

  datatype Padding = Pkcs1 | NoPadding

  datatype Action =
    | NotSet
    | Ping
    | RsaDecrypt(padding: Padding)
    | RsaSign(hash: Hash)
    | RsaPssSign(hash: Hash)
    | EcdsaSign(hash: Hash)
    | Ed25519Sign

  datatype RequestError =
    | ClosedEarly
    | ReadFailed
    | UnexpectedVersion(major: Byte, minor: Byte)
    | CorruptedMessage
    | InvalidItemLength(tag: Byte)

  datatype Result<T, E> = Ok(value: T) | Err(error: E)

  /** What a message says, whoever wrote it. */
  datatype Message = Message(id: U32, opcode: Byte, ski: seq<Byte>, payload: seq<Byte>)

  const MESSAGE_HEADER: nat := 8
  const BUF_PREFIX: nat := 15

  const OPCODE_TAG: Byte := 0x11
  const PAYLOAD_TAG: Byte := 0x12

  /** parse_value */
  function Apply(m: Message, i: Item): (Message, Option<RequestError>) {
    match i.tag
    case 0x01 => (m, None)
    case 0x04 => (m.(ski := i.value), None)
    case 0x11 =>
      if |i.value| != 1 then (m, Some(InvalidItemLength(i.tag)))
      else (m.(opcode := i.value[0]), None)
    case 0x12 => (m.(payload := i.value), None)
    case _ => (m, None)
  }

  function BigEndian(n: U32): (b: seq<Byte>)
    ensures |b| == 4
  {
    [n / 0x100_0000, n / 0x1_0000 % 256, n / 256 % 256, n % 256]
  }

  function FromBigEndian(a: int, b: int, c: int, d: int): int {
    a * 0x100_0000 + b * 0x1_0000 + c * 256 + d
  }

  /** What `read` makes of a stream that ends, or fails, after these bytes. */
  function Decode(stream: seq<Byte>, msgCount: nat): Result<Message, RequestError> {
    var short := Err(if msgCount == 0 then ClosedEarly else ReadFailed);
    if |stream| < MESSAGE_HEADER then short
    else if stream[0] != 1 || stream[1] != 0 then Err(UnexpectedVersion(stream[0], stream[1]))
    else
      var length := Word(stream[2], stream[3]);
      if |stream| < MESSAGE_HEADER + length then short
      else
        var id := FromBigEndian(stream[4], stream[5], stream[6], stream[7]);
        DecodeBody(id, stream[MESSAGE_HEADER..MESSAGE_HEADER + length])
  }

  function DecodeBody(id: U32, body: seq<Byte>): Result<Message, RequestError> {
    var (m, error) := Visit(Apply, Message(id, 0, [], []), Split(body).0);
    if error.Some? then Err(error.value)
    else if Complete(body) then Ok(m)
    else Err(CorruptedMessage)
  }

  /** The bytes of a response with one opcode and one payload; both lengths are cut to 16 bits. */
  function Frame(id: U32, opcode: Byte, payload: seq<Byte>): seq<Byte> {
    var itemLength := |payload| % 0x1_0000;
    var length := (|payload| + BUF_PREFIX - MESSAGE_HEADER) % 0x1_0000;
    [1, 0, length / 256, length % 256] + BigEndian(id)
    + [OPCODE_TAG, 0, 1, opcode, PAYLOAD_TAG, itemLength / 256, itemLength % 256] + payload
  }

  lemma BigEndianRoundTrip(n: U32)
    ensures FromBigEndian(BigEndian(n)[0], BigEndian(n)[1], BigEndian(n)[2], BigEndian(n)[3]) == n
  {
    assert n == n / 256 * 256 + n % 256;
    var m := n / 256;
    assert m == m / 256 * 256 + m % 256 && n / 0x1_0000 == m / 256;
    var k := m / 256;
    assert k == k / 256 * 256 + k % 256 && n / 0x100_0000 == k / 256;
  }

  /** The two items of a response. */
  function Items(opcode: Byte, payload: seq<Byte>): seq<Item> {
    [Item(OPCODE_TAG, [opcode]), Item(PAYLOAD_TAG, payload)]
  }

  lemma FrameParts(id: U32, opcode: Byte, payload: seq<Byte>, rest: seq<Byte>, msgCount: nat)
    ensures var length := (|payload| + 7) % 0x1_0000;
            var bytes := Frame(id, opcode, payload);
            && MESSAGE_HEADER + length <= |bytes|
            && Decode(bytes + rest, msgCount) == DecodeBody(id, bytes[MESSAGE_HEADER..MESSAGE_HEADER + length])
  {
    var length := (|payload| + 7) % 0x1_0000;
    var bytes := Frame(id, opcode, payload);
    var stream := bytes + rest;
    BigEndianRoundTrip(id);
    assert stream[0] == 1 && stream[1] == 0 && Word(stream[2], stream[3]) == length;
    assert stream[4] == BigEndian(id)[0] && stream[5] == BigEndian(id)[1];
    assert stream[6] == BigEndian(id)[2] && stream[7] == BigEndian(id)[3];
    assert stream[MESSAGE_HEADER..MESSAGE_HEADER + length] == bytes[MESSAGE_HEADER..MESSAGE_HEADER + length];
  }

  lemma FrameBody(id: U32, opcode: Byte, payload: seq<Byte>)
    requires |payload| <= 65528
    ensures |Frame(id, opcode, payload)| == |payload| + BUF_PREFIX
    ensures Frame(id, opcode, payload)[MESSAGE_HEADER..]
         == [OPCODE_TAG, 0, 1, opcode, PAYLOAD_TAG, |payload| / 256, |payload| % 256] + payload
  {
  }

  lemma BodyIsEncoding(id: U32, opcode: Byte, payload: seq<Byte>)
    requires |payload| <= 65528
    ensures Frame(id, opcode, payload)[MESSAGE_HEADER..] == Encode(Items(opcode, payload))
    ensures |Frame(id, opcode, payload)| == |payload| + BUF_PREFIX
  {
    var items := Items(opcode, payload);
    EncodeStep(items);
    EncodeStep(items[1..]);
    assert items[1..][1..] == [];
    assert Encode(items[1..][1..]) == [];
    hide Encode;
    assert Encode(items) == EncodeItem(items[0]) + (EncodeItem(items[1]) + []);
    var head := [OPCODE_TAG, 0, 1, opcode, PAYLOAD_TAG, |payload| / 256, |payload| % 256];
    assert EncodeItem(items[0]) + EncodeItem(items[1]) == head + payload;
    FrameBody(id, opcode, payload);
  }

  lemma VisitItems(m: Message, opcode: Byte, payload: seq<Byte>)
    ensures Visit(Apply, m, Items(opcode, payload)) == (m.(opcode := opcode, payload := payload), None)
  {
    VisitStep(Apply, m, Item(OPCODE_TAG, [opcode]), [Item(PAYLOAD_TAG, payload)]);
    VisitStep(Apply, m.(opcode := opcode), Item(PAYLOAD_TAG, payload), []);
    assert [Item(PAYLOAD_TAG, payload)] + [] == [Item(PAYLOAD_TAG, payload)];
  }

  lemma ShortReadsBack(id: U32, opcode: Byte, payload: seq<Byte>, rest: seq<Byte>, msgCount: nat)
    requires |payload| <= 65528
    ensures Decode(Frame(id, opcode, payload) + rest, msgCount) == Ok(Message(id, opcode, [], payload))
  {
    hide Decode, Split, Visit, Apply, Frame, Encode;
    var bytes, items := Frame(id, opcode, payload), Items(opcode, payload);
    FrameParts(id, opcode, payload, rest, msgCount);
    BodyIsEncoding(id, opcode, payload);
    assert bytes[MESSAGE_HEADER..MESSAGE_HEADER + |payload| + 7] == bytes[MESSAGE_HEADER..];
    SplitEncode(items, []);
    assert Encode(items) + [] == Encode(items);
    VisitItems(Message(id, 0, [], []), opcode, payload);
  }

  /** The value of the last item with this tag, or `otherwise`. */
  function LastValue(items: seq<Item>, tag: Byte, otherwise: seq<Byte>): seq<Byte> {
    if items == [] then otherwise
    else LastValue(items[1..], tag, if items[0].tag == tag then items[0].value else otherwise)
  }

  /** Every opcode item holds one byte. */
  predicate OpcodesFit(items: seq<Item>) {
    forall i :: i in items && i.tag == OPCODE_TAG ==> |i.value| == 1
  }

  /** Items are taken if their opcodes fit, and then each field is what its last item says:
      the key identifier under tag 4, the opcode under 0x11, the payload under 0x12. */
  lemma {:induction false} VisitMeans(m: Message, items: seq<Item>)
    ensures var (after, error) := Visit(Apply, m, items);
            && (error.None? <==> OpcodesFit(items))
            && (error.Some? ==> error.value == InvalidItemLength(OPCODE_TAG))
            && (error.None? ==>
                  && after.id == m.id
                  && [after.opcode] == LastValue(items, OPCODE_TAG, [m.opcode])
                  && after.ski == LastValue(items, 0x04, m.ski)
                  && after.payload == LastValue(items, PAYLOAD_TAG, m.payload))
    decreases |items|
  {
    if items != [] {
      var i := items[0];
      var (next, error) := Apply(m, i);
      assert items == [i] + items[1..];
      VisitStep(Apply, m, i, items[1..]);
      VisitMeans(next, items[1..]);
      if error.None? && i.tag == OPCODE_TAG {
        assert i.value == [next.opcode];
      }
    }
  }

  /** The last of several items with a tag counts; without one, what was there before. */
  lemma {:induction false} LastValueIs(a: seq<Item>, i: Item, b: seq<Item>, otherwise: seq<Byte>)
    requires forall x :: x in b ==> x.tag != i.tag
    ensures LastValue(a + [i] + b, i.tag, otherwise) == i.value
    ensures LastValue(b, i.tag, otherwise) == otherwise
    decreases |a| + |b|
  {
    if a != [] {
      var items := a + [i] + b;
      assert items[1..] == a[1..] + [i] + b;
      LastValueIs(a[1..], i, b, if a[0].tag == i.tag then a[0].value else otherwise);
      LastValueNone(b, i.tag, otherwise);
    } else {
      assert ([] + [i] + b)[1..] == b;
      LastValueNone(b, i.tag, i.value);
      LastValueNone(b, i.tag, otherwise);
    }
  }

  lemma {:induction false} LastValueNone(items: seq<Item>, tag: Byte, otherwise: seq<Byte>)
    requires forall x :: x in items ==> x.tag != tag
    ensures LastValue(items, tag, otherwise) == otherwise
  {
    if items != [] {
      LastValueNone(items[1..], tag, otherwise);
    }
  }

  /** The fields of a message, from its items. */
  ghost predicate Says(m: Message, items: seq<Item>) {
    && [m.opcode] == LastValue(items, OPCODE_TAG, [0])
    && m.ski == LastValue(items, 0x04, []) && m.payload == LastValue(items, PAYLOAD_TAG, [])
  }

  /** What becomes of a body, which is some items and a remainder that starts none. */
  lemma BodyMeans(id: U32, body: seq<Byte>, items: seq<Item>, rest: seq<Byte>)
    requires Fits(items) && body == Encode(items) + rest && !Starts(rest)
    ensures var r := DecodeBody(id, body);
            && (r.Ok? <==> OpcodesFit(items) && items != [] && rest == [])
            && (r.Ok? ==> r.value.id == id && Says(r.value, items))
            && (!OpcodesFit(items) ==> r == Err(InvalidItemLength(OPCODE_TAG)))
            && (OpcodesFit(items) && !r.Ok? ==> r == Err(CorruptedMessage))
  {
    hide Split, Visit, Encode, Starts, Apply;
    SplitEncode(items, rest);
    VisitMeans(Message(id, 0, [], []), items);
    var error := Visit(Apply, Message(id, 0, [], []), items).1;
    assert error.Some? <==> !OpcodesFit(items);
  }

  /** The length in a header. */
  function BodyLength(stream: seq<Byte>): nat
    requires |stream| >= 4
  {
    stream[2] as int * 256 + stream[3]
  }

  /** A stream is taken if and only if it starts with a header of version 1.0 and with as many
      bytes as that says, and these encode at least one item, the opcodes among them of one
      byte each. The message has the identity in the header and what its items say. */
  lemma DecodeAccepts(stream: seq<Byte>, msgCount: nat)
    ensures var r := Decode(stream, msgCount);
            && (r.Ok? <==>
                  && |stream| >= 8 && stream[0] == 1 && stream[1] == 0 && |stream| >= 8 + BodyLength(stream)
                  && exists items :: IsEncoding(stream[8..8 + BodyLength(stream)], items) && OpcodesFit(items))
            && (r.Ok? ==>
                  && r.value.id == stream[4] as int * 0x100_0000 + stream[5] as int * 0x1_0000 + stream[6] as int * 256 + stream[7]
                  && forall items :: IsEncoding(stream[8..8 + BodyLength(stream)], items) ==> Says(r.value, items))
  {
    hide DecodeBody, IsEncoding, OpcodesFit, Says;
    if |stream| >= 8 && stream[0] == 1 && stream[1] == 0 && |stream| >= 8 + BodyLength(stream) {
      var id := FromBigEndian(stream[4], stream[5], stream[6], stream[7]);
      BodyAccepts(id, stream[8..8 + BodyLength(stream)]);
    }
  }

  lemma BodyAccepts(id: U32, body: seq<Byte>)
    ensures var r := DecodeBody(id, body);
            && (r.Ok? <==> exists items :: IsEncoding(body, items) && OpcodesFit(items))
            && (r.Ok? ==> r.value.id == id && forall items :: IsEncoding(body, items) ==> Says(r.value, items))
  {
    hide DecodeBody, Split, Encode, OpcodesFit, Says;
    CompleteIsEncoding(body);
    SplitIsEncoding(body);
    BodyMeans(id, body, Split(body).0, Split(body).1);
  }

  /** The error of every other stream: cut short, of another version, with an opcode of the
      wrong size in front, or cut in an item. */
  lemma DecodeRefuses(stream: seq<Byte>, msgCount: nat, items: seq<Item>, rest: seq<Byte>)
    requires Fits(items) && !Starts(rest)
    ensures var r, cut := Decode(stream, msgCount), Err(if msgCount == 0 then ClosedEarly else ReadFailed);
            && (|stream| < 8 ==> r == cut)
            && (|stream| >= 8 && (stream[0] != 1 || stream[1] != 0) ==> r == Err(UnexpectedVersion(stream[0], stream[1])))
            && (|stream| >= 8 && stream[0] == 1 && stream[1] == 0 ==>
                  && (|stream| < 8 + BodyLength(stream) ==> r == cut)
                  && (|stream| >= 8 + BodyLength(stream)
                      && stream[8..8 + BodyLength(stream)] == Encode(items) + rest ==>
                        && (!OpcodesFit(items) ==> r == Err(InvalidItemLength(0x11)))
                        && (OpcodesFit(items) && (items == [] || rest != []) ==> r == Err(CorruptedMessage))))
  {
    hide DecodeBody, Starts, Encode, OpcodesFit;
    if |stream| >= 8 && stream[0] == 1 && stream[1] == 0 && |stream| >= 8 + BodyLength(stream) {
      var body := stream[8..8 + BodyLength(stream)];
      if body == Encode(items) + rest {
        BodyMeans(FromBigEndian(stream[4], stream[5], stream[6], stream[7]), body, items, rest);
      }
    }
  }

  /** A message is at least as long as the opcode and payload it sets. */
  lemma {:induction false} VisitBound(m: Message, items: seq<Item>)
    requires Fits(items)
    ensures var after := Visit(Apply, m, items).0;
            |Encode(items)| >= (if after.opcode != m.opcode then 4 else 0)
                               + (if after.payload != m.payload then HEADER + |after.payload| else 0)
    decreases |items|
  {
    if items != [] {
      var (next, error) := Apply(m, items[0]);
      VisitBound(next, items[1..]);
    }
  }

  /** What was read off the wire fits a message, with room for the opcode if one was sent. */
  lemma BodyBound(id: U32, body: seq<Byte>)
    requires DecodeBody(id, body).Ok?
    ensures var m := DecodeBody(id, body).value;
            && (m.payload != [] ==> HEADER + |m.payload| <= |body|)
            && (m.payload != [] && m.opcode != 0 ==> 4 + HEADER + |m.payload| <= |body|)
  {
    hide Visit, Split;
    SplitIsEncoding(body);
    VisitBound(Message(id, 0, [], []), Split(body).0);
  }

  lemma LongDoesNot(id: U32, opcode: Byte, payload: seq<Byte>, body: seq<Byte>)
    requires |payload| > 65528 && |body| == (|payload| + 7) % 0x1_0000
    ensures DecodeBody(id, body) != Ok(Message(id, opcode, [], payload))
  {
    assert |body| < |payload|;
    if DecodeBody(id, body) == Ok(Message(id, opcode, [], payload)) {
      hide DecodeBody;
      BodyBound(id, body);
    }
  }

  /** Every response of at most 65528 payload bytes, and no other, reads back as written,
      whatever follows it on the wire. */
  lemma ReadsBack(id: U32, opcode: Byte, payload: seq<Byte>, rest: seq<Byte>, msgCount: nat)
    ensures Decode(Frame(id, opcode, payload) + rest, msgCount) == Ok(Message(id, opcode, [], payload))
            <==> |payload| <= 65528
  {
    if |payload| <= 65528 {
      ShortReadsBack(id, opcode, payload, rest, msgCount);
    } else {
      hide Decode, DecodeBody, Frame;
      FrameParts(id, opcode, payload, rest, msgCount);
      var length := (|payload| + 7) % 0x1_0000;
      LongDoesNot(id, opcode, payload, Frame(id, opcode, payload)[MESSAGE_HEADER..MESSAGE_HEADER + length]);
    }
  }

  /** The pong made for a request that came off the wire is never cut short. */
  lemma PongReadsBack(stream: seq<Byte>, msgCount: nat, rest: seq<Byte>, count: nat)
    requires Decode(stream, msgCount).Ok? && Decode(stream, msgCount).value.opcode == 0xF1
    ensures var m := Decode(stream, msgCount).value;
            && |m.payload| <= 65528
            && Decode(Frame(m.id, 0xF2, m.payload) + rest, count) == Ok(Message(m.id, 0xF2, [], m.payload))
  {
    hide DecodeBody, Frame;
    var m := Decode(stream, msgCount).value;
    var length := Word(stream[2], stream[3]);
    var id := FromBigEndian(stream[4], stream[5], stream[6], stream[7]);
    BodyBound(id, stream[MESSAGE_HEADER..MESSAGE_HEADER + length]);
    hide Decode;
    ShortReadsBack(m.id, 0xF2, m.payload, rest, count);
  }

  /** KeylessPongResponse::new */
  function Pong(id: U32, payload: seq<Byte>): seq<Byte> {
    var itemLength := |payload| % 0x1_0000;
    var length := (|payload| + BUF_PREFIX - MESSAGE_HEADER) % 0x1_0000;
    var b := BigEndian(id);
    [0x01, 0x00, length / 256, length % 256, b[0], b[1], b[2], b[3],
     0x11, 0x00, 0x01, 0xF2, 0x12, itemLength / 256, itemLength % 256] + payload
  }

  lemma PongIsFrame(id: U32, payload: seq<Byte>)
    ensures Pong(id, payload) == Frame(id, 0xF2, payload)
  {
  }

  /** The signature or plain text computed for a request, filled in where it will be sent. */
  lemma FrameSplit(id: U32, payload: seq<Byte>, item: nat, message: nat)
    requires item == |payload| % 0x1_0000 && message == (|payload| + BUF_PREFIX - MESSAGE_HEADER) % 0x1_0000
    ensures Frame(id, 0xF0, payload)
         == [1, 0] + [message / 256, message % 256] + BigEndian(id) + [OPCODE_TAG, 0, 1, 0xF0, PAYLOAD_TAG]
            + [item / 256, item % 256] + payload
  {
    hide BigEndian;
  }

  /** The parts of a new response around its identity `b`. */
  lemma NewParts(b: seq<Byte>, junk: seq<Byte>)
    requires |b| == 4
    ensures var buf := [0x01, 0x00, 0x00, 0x00, b[0], b[1], b[2], b[3],
                        0x11, 0x00, 0x01, 0xF0, 0x12, 0x00, 0x00] + junk;
            && buf[..2] == [1, 0] && buf[4..8] == b
            && buf[8..13] == [OPCODE_TAG, 0, 1, 0xF0, PAYLOAD_TAG] && buf[BUF_PREFIX..] == junk
            && buf[2..4] == [0, 0] && buf[13..15] == [0, 0]
  {
  }

  /** Setting the two lengths. */
  lemma LengthsSet(buf: seq<Byte>, item: nat, message: nat)
    requires item < 0x1_0000 && message < 0x1_0000 && |buf| >= BUF_PREFIX
    ensures buf[13 := item / 256][14 := item % 256][2 := message / 256][3 := message % 256]
         == buf[..2] + [message / 256, message % 256] + buf[4..8] + buf[8..13] + [item / 256, item % 256] + buf[BUF_PREFIX..]
  {
  }

  class DataResponse {
    const id: U32
    var buf: seq<Byte>

    ghost predicate Valid()
      reads this
    {
      && BUF_PREFIX <= |buf|
      && buf[..2] == [1, 0] && buf[4..8] == BigEndian(id)
      && buf[8..13] == [OPCODE_TAG, 0, 1, 0xF0, PAYLOAD_TAG]
    }

    /** `junk` is what the unset bytes of the payload happen to hold. */
    constructor (id: U32, junk: seq<Byte>)
      ensures Valid() && this.id == id && buf[BUF_PREFIX..] == junk
      ensures buf[2..4] == [0, 0] && buf[13..15] == [0, 0]
    {
      hide BigEndian;
      var b := BigEndian(id);
      NewParts(b, junk);
      this.id := id;
      buf := [0x01, 0x00, 0x00, 0x00, b[0], b[1], b[2], b[3],
              0x11, 0x00, 0x01, 0xF0, 0x12, 0x00, 0x00] + junk;
    }

    /** What the cryptographic operation writes through payload_data_mut. */
    method Fill(data: seq<Byte>)
      requires Valid() && BUF_PREFIX + |data| <= |buf|
      modifies this`buf
      ensures Valid() && buf == old(buf)[..BUF_PREFIX] + data + old(buf)[BUF_PREFIX + |data|..]
      ensures |buf| == |old(buf)| && buf[BUF_PREFIX..BUF_PREFIX + |data|] == data
    {
      hide BigEndian;
      buf := buf[..BUF_PREFIX] + data + buf[BUF_PREFIX + |data|..];
      assert buf[..BUF_PREFIX] == old(buf)[..BUF_PREFIX];
      assert buf[..2] == buf[..BUF_PREFIX][..2] && buf[4..8] == buf[..BUF_PREFIX][4..8];
      assert buf[8..13] == buf[..BUF_PREFIX][8..13];
    }

    method FinalizePayload(length: nat)
      requires Valid() && BUF_PREFIX + length <= |buf|
      modifies this`buf
      ensures buf == Frame(id, 0xF0, old(buf)[BUF_PREFIX..BUF_PREFIX + length])
    {
      hide BigEndian;
      var bufLength := BUF_PREFIX + length;
      buf := buf[..bufLength];
      var itemLength := length % 0x1_0000;
      var msgLength := (bufLength - MESSAGE_HEADER) % 0x1_0000;
      LengthsSet(buf, itemLength, msgLength);
      buf := buf[13 := itemLength / 256];
      buf := buf[14 := itemLength % 256];
      buf := buf[2 := msgLength / 256];
      buf := buf[3 := msgLength % 256];
      FrameSplit(id, old(buf)[BUF_PREFIX..bufLength], itemLength, msgLength);
    }
  }

  /** An error response, set to one of the twelve codes. */
  function ErrorNew(id: U32): seq<Byte> {
    var b := BigEndian(id);
    [0x01, 0x00, 0x00, 0x08, b[0], b[1], b[2], b[3],
     0x11, 0x00, 0x01, 0xFF, 0x12, 0x00, 0x01, 0x00]
  }

  function SetErrorCode(buf: seq<Byte>, code: Byte): seq<Byte>
    requires BUF_PREFIX < |buf|
  {
    buf[BUF_PREFIX := code]
  }

  lemma ErrorIsFrame(id: U32, code: Byte)
    ensures SetErrorCode(ErrorNew(id), code) == Frame(id, 0xFF, [code])
  {
  }

  const BAD_OP_CODE: Byte := 5
  const FORMAT_ERROR: Byte := 7

  function DigestSize(h: Hash): nat {
    match h
    case Md5Sha1 => 36
    case Sha1 => 20
    case Sha224 => 28
    case Sha256 => 32
    case Sha384 => 48
    case Sha512 => 64
  }

  const HASHES := [Md5Sha1, Sha1, Sha224, Sha256, Sha384, Sha512]

  /** The signature an opcode asks for. Each family numbers its hashes in the same order. */
  function Signature(opcode: Byte): Option<Action> {
    if 0x02 <= opcode <= 0x07 then Some(RsaSign(HASHES[opcode - 0x02]))
    else if 0x12 <= opcode <= 0x17 then Some(EcdsaSign(HASHES[opcode - 0x12]))
    else if 0x35 <= opcode <= 0x37 then Some(RsaPssSign(HASHES[opcode - 0x32]))
    else None
  }

  /** The other actions, which take a payload of any size. */
  function Unhashed(opcode: Byte): Option<Action> {
    if opcode == 0x01 then Some(RsaDecrypt(Pkcs1))
    else if opcode == 0x08 then Some(RsaDecrypt(NoPadding))
    else if opcode == 0x18 then Some(Ed25519Sign)
    else if opcode == 0xF1 then Some(Ping)
    else None
  }

  /** The opcodes with their hashes, the sizes of the digests, and the two error codes. */
  lemma OpcodeTable()
    ensures Signature(0x02) == Some(RsaSign(Md5Sha1)) && Signature(0x03) == Some(RsaSign(Sha1))
    ensures Signature(0x04) == Some(RsaSign(Sha224)) && Signature(0x05) == Some(RsaSign(Sha256))
    ensures Signature(0x06) == Some(RsaSign(Sha384)) && Signature(0x07) == Some(RsaSign(Sha512))
    ensures Signature(0x12) == Some(EcdsaSign(Md5Sha1)) && Signature(0x13) == Some(EcdsaSign(Sha1))
    ensures Signature(0x14) == Some(EcdsaSign(Sha224)) && Signature(0x15) == Some(EcdsaSign(Sha256))
    ensures Signature(0x16) == Some(EcdsaSign(Sha384)) && Signature(0x17) == Some(EcdsaSign(Sha512))
    ensures Signature(0x35) == Some(RsaPssSign(Sha256)) && Signature(0x36) == Some(RsaPssSign(Sha384))
    ensures Signature(0x37) == Some(RsaPssSign(Sha512))
    ensures Unhashed(0x01) == Some(RsaDecrypt(Pkcs1)) && Unhashed(0x08) == Some(RsaDecrypt(NoPadding))
    ensures Unhashed(0x18) == Some(Ed25519Sign) && Unhashed(0xF1) == Some(Ping)
    ensures forall c: Byte :: Signature(c).Some? <==> 2 <= c <= 7 || 0x12 <= c <= 0x17 || 0x35 <= c <= 0x37
    ensures forall c: Byte :: Unhashed(c).Some? <==> c in {0x01, 0x08, 0x18, 0xF1}
    ensures DigestSize(Md5Sha1) == 16 + 20 && DigestSize(Sha1) == 160 / 8 && DigestSize(Sha224) == 224 / 8
    ensures DigestSize(Sha256) == 256 / 8 && DigestSize(Sha384) == 384 / 8 && DigestSize(Sha512) == 512 / 8
    ensures BAD_OP_CODE == 5 && FORMAT_ERROR == 7
  {
  }

  class Request {
    var id: U32
    var opcode: Byte
    var action: Action
    var ski: seq<Byte>
    var payload: seq<Byte>

    ghost function View(): Message
      reads this
    {
      Message(id, opcode, ski, payload)
    }

    constructor (id: U32)
      ensures View() == Message(id, 0, [], []) && action == NotSet
    {
      this.id, opcode, action, ski, payload := id, 0, NotSet, [], [];
    }

    method ParseTlv(v: seq<Byte>) returns (r: Outcome<RequestError>)
      modifies this
      ensures View() == Visit(Apply, old(View()), Split(v).0).0 && action == old(action)
      ensures match Visit(Apply, old(View()), Split(v).0).1
              case Some(e) => r == Refused(e)
              case None => r == if Complete(v) then Done else NoEnoughData
    {
      var m;
      m, r := Parse(v, Message(id, opcode, ski, payload), Apply);
      id, opcode, ski, payload := m.id, m.opcode, m.ski, m.payload;
    }

    /** `stream` is what the reader delivers before it ends or fails. */
    static method Read(stream: seq<Byte>, msgCount: nat) returns (request: Request?, error: Option<RequestError>)
      ensures match Decode(stream, msgCount)
              case Ok(m) =>
                request != null && fresh(request) && request.View() == m && request.action == NotSet && error == None
              case Err(e) => request == null && error == Some(e)
    {
      var short := Some(if msgCount == 0 then ClosedEarly else ReadFailed);
      if |stream| < MESSAGE_HEADER {
        return null, short;
      }
      var major, minor := stream[0], stream[1];
      if major != 1 || minor != 0 {
        return null, Some(UnexpectedVersion(major, minor));
      }
      var length := Word(stream[2], stream[3]);
      if |stream| < MESSAGE_HEADER + length {
        return null, short;
      }
      var buf := stream[MESSAGE_HEADER..MESSAGE_HEADER + length];
      request := new Request(FromBigEndian(stream[4], stream[5], stream[6], stream[7]));
      var r := request.ParseTlv(buf);
      match r
      case Done => error := None;
      case NoEnoughData => return null, Some(CorruptedMessage);
      case Refused(e) => return null, Some(e);
    }

    method CheckDigest(h: Hash) returns (failure: Option<seq<Byte>>)
      ensures failure == if |payload| == DigestSize(h) then None else Some(Frame(id, 0xFF, [FORMAT_ERROR]))
    {
      if DigestSize(h) != |payload| {
        ErrorIsFrame(id, FORMAT_ERROR);
        return Some(SetErrorCode(ErrorNew(id), FORMAT_ERROR));
      }
      return None;
    }

    /** Accepts the opcodes of the table, a signature only over a digest of its hash's size. */
    method VerifyOpcode() returns (failure: Option<seq<Byte>>)
      modifies `action
      ensures Unhashed(opcode).Some? ==> failure == None && action == Unhashed(opcode).value
      ensures Signature(opcode).Some? && |payload| == DigestSize(Signature(opcode).value.hash) ==>
        failure == None && action == Signature(opcode).value
      ensures Signature(opcode).Some? && |payload| != DigestSize(Signature(opcode).value.hash) ==>
        failure == Some(Frame(id, 0xFF, [FORMAT_ERROR])) && action == old(action)
      ensures Signature(opcode).None? && Unhashed(opcode).None? ==>
        failure == Some(Frame(id, 0xFF, [BAD_OP_CODE])) && action == old(action)
    {
      failure := None;
      var wanted;
      match opcode {
        case 0x01 => wanted := RsaDecrypt(Pkcs1);
        case 0x02 => failure := CheckDigest(Md5Sha1); wanted := RsaSign(Md5Sha1);
        case 0x03 => failure := CheckDigest(Sha1); wanted := RsaSign(Sha1);
        case 0x04 => failure := CheckDigest(Sha224); wanted := RsaSign(Sha224);
        case 0x05 => failure := CheckDigest(Sha256); wanted := RsaSign(Sha256);
        case 0x06 => failure := CheckDigest(Sha384); wanted := RsaSign(Sha384);
        case 0x07 => failure := CheckDigest(Sha512); wanted := RsaSign(Sha512);
        case 0x08 => wanted := RsaDecrypt(NoPadding);
        case 0x12 => failure := CheckDigest(Md5Sha1); wanted := EcdsaSign(Md5Sha1);
        case 0x13 => failure := CheckDigest(Sha1); wanted := EcdsaSign(Sha1);
        case 0x14 => failure := CheckDigest(Sha224); wanted := EcdsaSign(Sha224);
        case 0x15 => failure := CheckDigest(Sha256); wanted := EcdsaSign(Sha256);
        case 0x16 => failure := CheckDigest(Sha384); wanted := EcdsaSign(Sha384);
        case 0x17 => failure := CheckDigest(Sha512); wanted := EcdsaSign(Sha512);
        case 0x18 => wanted := Ed25519Sign;
        case 0x35 => failure := CheckDigest(Sha256); wanted := RsaPssSign(Sha256);
        case 0x36 => failure := CheckDigest(Sha384); wanted := RsaPssSign(Sha384);
        case 0x37 => failure := CheckDigest(Sha512); wanted := RsaPssSign(Sha512);
        case 0xF1 => wanted := Ping;
        case _ =>
          ErrorIsFrame(id, BAD_OP_CODE);
          return Some(SetErrorCode(ErrorNew(id), BAD_OP_CODE));
      }
      if failure.None? {
        action := wanted;
      }
    }

    method PingPong() returns (pong: Option<seq<Byte>>)
      ensures pong == if action == Ping then Some(Frame(id, 0xF2, payload)) else None
    {
      if action != Ping {
        return None;
      }
      PongIsFrame(id, payload);
      return Some(Pong(id, payload));
    }
  }
}
