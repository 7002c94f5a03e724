/** The enciphered message format: the same bytes inside an encryption that starts with a random vector. */
module SecureCodec {
  import opened Basics
  import opened Codec
  import opened Salsa

  /** `Encrypt`, with the random vector it draws as a parameter, and `Decrypt`. */
  datatype Cipher = Cipher(ivLen: nat, enc: (bytes, bytes) -> bytes, dec: bytes -> bytes)

  /** Decrypting an encryption gives the text back. Nothing is said of the empty text, which decrypts to nil. */
  ghost predicate Lawful(c: Cipher) {
    forall iv, x :: |iv| == c.ivLen && x != [] ==> c.dec(c.enc(iv, x)) == x
  }

  /** The framing of `cipherr` around a fresh salsa stream for each message. */
  function SalsaCipher(streams: bytes -> Keystream): Cipher {
    Cipher(
      8,
      (iv, x) => iv + Stream(streams(iv), 0, x),
      y => if |y| <= 8 then [] else Stream(streams(y[..8]), 0, y[8..]))
  }

  /** On the wire: the vector, then each byte of the text xor the byte of the keystream at its place. */
  lemma SalsaCipherWire(streams: bytes -> Keystream, iv: bytes, x: bytes)
    ensures var y := SalsaCipher(streams).enc(iv, x);
      |y| == |iv| + |x| && y[..|iv|] == iv && IsEnciphered(y[|iv|..], streams(iv), 0, x)
  {
    StreamEnciphers(streams(iv), 0, x, |x|);
    assert SalsaCipher(streams).enc(iv, x)[|iv|..] == Stream(streams(iv), 0, x)[..|x|];
  }

  lemma SalsaCipherIsLawful(streams: bytes -> Keystream)
    ensures Lawful(SalsaCipher(streams))
  {
    var c := SalsaCipher(streams);
    forall iv: bytes, x: bytes | |iv| == c.ivLen && x != []
      ensures c.dec(c.enc(iv, x)) == x
    {
      var y := iv + Stream(streams(iv), 0, x);
      assert y[..8] == iv && y[8..] == Stream(streams(iv), 0, x);
      StreamUndoes(streams(iv), 0, x);
    }
  }

  datatype UnMarshallResult = Ok | DecryptError | FormatError

  class SecureMessage {
    const m: Message
    const c: Cipher

    constructor (c: Cipher)
      ensures this.c == c && fresh(m)
    {
      m := new Message();
      this.c := c;
    }

    method Marshall(iv: bytes) returns (bs: bytes)
      ensures bs == c.enc(iv, Encode(m.header, m.attr))
    {
      var plain := m.Marshall();
      bs := c.enc(iv, plain);
    }

    method UnMarshall(message: bytes) returns (r: UnMarshallResult)
      modifies m
      ensures r.DecryptError? <==> c.dec(message) == []
      ensures r.Ok? <==> Accepts(c.dec(message))
      ensures r.DecryptError? ==> m.header == old(m.header) && m.attr == old(m.attr) && m.attrMaps == old(m.attrMaps)
      ensures r.FormatError? ==>
                var plain := c.dec(message);
                if |plain| < 9 then
                  && m.header == PartOfHeader(old(m.header), plain)
                  && m.attr == old(m.attr) && m.attrMaps == old(m.attrMaps)
                else
                  && m.header == DecodeHeader(plain) && |m.attr| == m.header.attrNum
                  && var parsed := ParsePrefix(plain[9..], m.header.attrNum).0;
                     |parsed| < |m.attr| && parsed <= m.attr && m.attrMaps == MapOf(parsed)
      ensures r.Ok? ==>
                && m.header == DecodeHeader(c.dec(message))
                && m.attr == ParsePrefix(c.dec(message)[9..], m.header.attrNum).0
                && m.attrMaps == MapOf(m.attr)
    {
      var bs := c.dec(message);
      if |bs| <= 0 {
        return DecryptError;
      }
      var ok := m.UnMarshall(bs);
      r := if ok then Ok else FormatError;
    }
  }

  /** The enciphered trip is faithful exactly when the plain one is. */
  lemma SecureRoundTrip(c: Cipher, iv: bytes, h: Header, attrs: seq<Attr>)
    requires Lawful(c) && |iv| == c.ivLen
    ensures var bs := c.dec(c.enc(iv, Encode(h, attrs)));
      Accepts(bs) && DecodeHeader(bs) == h && ParsePrefix(bs[9..], bs[8]) == (attrs, []) <==> WellFormed(h, attrs)
  {
    HeaderRoundTrip(h, EncodeAttrs(attrs));
    assert Encode(h, attrs) != [];
    UnMarshallAfterMarshall(h, attrs);
  }

  /** The segments of the window protocol survive the wire: number and payload arrive as sent, in one datagram. */
  method CarrySegment(sender: SecureMessage, receiver: SecureMessage, iv: bytes, seqN: u16, payload: bytes)
    returns (datagram: bytes)
    requires sender.c == receiver.c && Lawful(sender.c) && |iv| == sender.c.ivLen && |payload| <= MSS
    requires sender.m != receiver.m
    modifies sender.m, receiver.m
    ensures receiver.m.header.seqN == seqN && receiver.m.header.flag == FLAG_PAYLOAD
    ensures ATTR_PAYLOAD in receiver.m.attrMaps && receiver.m.attrMaps[ATTR_PAYLOAD] == payload
    ensures datagram == sender.c.enc(iv, Encode(sender.m.header, sender.m.attr))
  {
    sender.m.PAYLOAD(seqN, payload);
    datagram := sender.Marshall(iv);
    SecureRoundTrip(sender.c, iv, sender.m.header, sender.m.attr);
    var r := receiver.UnMarshall(datagram);
    assert receiver.m.attr == sender.m.attr;
    assert receiver.m.attr[..0] == [];
  }

  /** Header, attribute head, payload and a 16 byte vector fit in a 1472 byte datagram. */
  lemma SegmentFits(seqN: u16, payload: bytes)
    requires |payload| <= MSS
    ensures |Encode(Header(seqN, 0, FLAG_PAYLOAD, 0, 1), [Attr(ATTR_PAYLOAD, |payload|, payload)])| + 16 <= 1472
  {
    var a := Attr(ATTR_PAYLOAD, |payload|, payload);
    assert [a][1..] == [];
    assert EncodeAttrs([a]) == EncodeAttr(a) + [];
  }
}
