/**
 The wire format of the reliable channel: a two-byte header, a payload and a
 one-byte canary for data fragments; the header alone for pure ACKs.

 Bit fields are written arithmetically: `b % 16` is the low nibble, and
 `b / 16 % 2` is bit 4.
 */
module Wire {

  datatype Option<+T> = None | Some(value: T)

  type Byte = b: int | 0 <= b < 256
  type Bytes = seq<Byte>

  /** A 4-bit sequence number. */
  type SeqNum = s: int | 0 <= s < 16

  const HEADER_SIZE := 2
  const FRAGMENT_CANARY: Byte := 0x5A

  /** One piece of a datagram, before it has a sequence number. */
  datatype Frag = Frag(payload: Bytes, first: bool, last: bool)

  /** What `Parse` finds in an accepted GATT value. */
  datatype Packet = Packet(seqNum: SeqNum, frag: Frag, ack: Option<SeqNum>)
  {
    predicate HasData() {
      frag.first || frag.last || frag.payload != []
    }
  }

  function Bit(b: bool): nat {
    if b then 1 else 0
  }

  function Min(a: int, b: int): int {
    if a <= b then a else b
  }

  function Pow2(k: nat): nat {
    if k == 0 then 1 else 2 * Pow2(k - 1)
  }

  function MakeHeader(s: SeqNum, first: bool, last: bool): Byte {
    s + 16 * Bit(first) + 32 * Bit(last)
  }

  /** Second header byte: zero, or the ACK flag with the acknowledged number. */
  function AckByte(ack: Option<SeqNum>): Byte {
    match ack
    case None => 0
    case Some(a) => a + 16
  }

  function DataMsg(s: SeqNum, f: Frag, ack: Option<SeqNum>): Bytes {
    [MakeHeader(s, f.first, f.last), AckByte(ack)] + f.payload + [FRAGMENT_CANARY]
  }

  function PureAck(a: SeqNum): Bytes {
    [0, AckByte(Some(a))]
  }

  /** Overwrites the ACK field of an already encoded message. */
  function SetAck(msg: Bytes, a: SeqNum): Bytes
    requires |msg| >= HEADER_SIZE
  {
    msg[1 := AckByte(Some(a))]
  }

  /** Splits a GATT value; `None` when it is too short or its canary is wrong. */
  function Parse(value: Bytes): Option<Packet> {
    if |value| < HEADER_SIZE then None
    else if |value| > HEADER_SIZE && value[|value| - 1] != FRAGMENT_CANARY then None
    else
      var body := if |value| > HEADER_SIZE then value[..|value| - 1] else value;
      var b0, b1 := body[0], body[1];
      var frag := Frag(body[HEADER_SIZE..], b0 / 16 % 2 == 1, b0 / 32 % 2 == 1);
      Some(Packet(b0 % 16, frag, if b1 / 16 % 2 == 1 then Some(b1 % 16) else None))
  }

  lemma HeaderRoundTrip(s: SeqNum, first: bool, last: bool)
    ensures var b := MakeHeader(s, first, last);
            b % 16 == s && (b / 16 % 2 == 1 <==> first) && (b / 32 % 2 == 1 <==> last)
  {
  }

  /** Every data message, with or without an ACK, parses back to what was encoded. */
  lemma ParseDataMsg(s: SeqNum, f: Frag, ack: Option<SeqNum>)
    ensures Parse(DataMsg(s, f, ack)) == Some(Packet(s, f, ack))
  {
    var m := DataMsg(s, f, ack);
    HeaderRoundTrip(s, f.first, f.last);
    assert m[..|m| - 1] == [MakeHeader(s, f.first, f.last), AckByte(ack)] + f.payload;
    assert m[..|m| - 1][HEADER_SIZE..] == f.payload;
  }

  /** A pure ACK parses to a packet without data that carries the number. */
  lemma ParsePureAck(a: SeqNum)
    ensures Parse(PureAck(a)).Some?
    ensures var p := Parse(PureAck(a)).value; !p.HasData() && p.ack == Some(a)
  {
    assert PureAck(a)[HEADER_SIZE..] == [];
  }

  /** Re-stamping the ACK of a data message is the same as encoding it with the new ACK. */
  lemma SetAckDataMsg(s: SeqNum, f: Frag, old_: Option<SeqNum>, a: SeqNum)
    ensures SetAck(DataMsg(s, f, old_), a) == DataMsg(s, f, Some(a))
  {
  }

  /** The converse: whatever parses with a body is the encoding of its parts, but for the unused header bits. */
  lemma ParseConverse(value: Bytes)
    requires |value| > HEADER_SIZE && Parse(value).Some?
    ensures var p := Parse(value).value;
            var m := DataMsg(p.seqNum, p.frag, p.ack);
            && value[HEADER_SIZE..] == m[HEADER_SIZE..] && value[0] % 64 == m[0]
            && (if p.ack.Some? then value[1] % 32 == m[1] else value[1] / 16 % 2 == 0 && m[1] == 0)
  {
    var p := Parse(value).value;
    assert DataMsg(p.seqNum, p.frag, p.ack)[HEADER_SIZE..] == p.frag.payload + [FRAGMENT_CANARY];
    assert value[HEADER_SIZE..] == value[..|value| - 1][HEADER_SIZE..] + [value[|value| - 1]];
  }
}
