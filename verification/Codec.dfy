/** The wire format of a message: a nine byte header, then type-length-value attributes, big-endian.
    The length on the wire is that of the whole attribute, three more than the value's, in 16-bit arithmetic. */
module Codec {
  import opened Basics

  datatype Header = Header(seqN: u16, ackN: u16, flag: u16, winSize: u16, attrNum: byte)

  /** Type, declared length and value. */
  datatype Attr = Attr(t: byte, l: u16, v: bytes)

  const FLAG_PAYLOAD: u16 := 32
  const ATTR_PAYLOAD: byte := 1

  // ---------- printing ----------

  function EncodeU16(x: u16): bytes {
    [x / 256, x % 256]
  }

  function EncodeHeader(h: Header): bytes {
    EncodeU16(h.seqN) + EncodeU16(h.ackN) + EncodeU16(h.flag) + EncodeU16(h.winSize) + [h.attrNum]
  }

  function EncodeAttr(a: Attr): bytes {
    [a.t] + EncodeU16((a.l + 3) % 65536) + a.v
  }

  function EncodeAttrs(attrs: seq<Attr>): bytes {
    if attrs == [] then [] else EncodeAttr(attrs[0]) + EncodeAttrs(attrs[1..])
  }

  function Encode(h: Header, attrs: seq<Attr>): bytes {
    EncodeHeader(h) + EncodeAttrs(attrs)
  }

  /** The first nine bytes, each number with its high byte first. */
  lemma HeaderLayout(h: Header, attrs: seq<Attr>)
    ensures var bs := Encode(h, attrs);
      && 9 <= |bs|
      && h.seqN == 256 * bs[0] as int + bs[1] && h.ackN == 256 * bs[2] as int + bs[3]
      && h.flag == 256 * bs[4] as int + bs[5] && h.winSize == 256 * bs[6] as int + bs[7]
      && h.attrNum == bs[8]
  {
  }

  /** An attribute on the wire: type, length with its high byte first and counting the three bytes before the value,
      value. */
  lemma AttrLayout(a: Attr)
    ensures var bs := EncodeAttr(a);
      && |bs| == 3 + |a.v| && bs[0] == a.t && bs[3..] == a.v
      && 256 * bs[1] as int + bs[2] == if a.l < 65533 then a.l + 3 else a.l - 65533
  {
  }

  /** A segment as a datagram before encryption. */
  lemma PayloadLayout(seqN: u16, payload: bytes)
    requires |payload| < 65533
    ensures var n: u16 := |payload| + 3;
      Encode(Header(seqN, 0, FLAG_PAYLOAD, 0, 1), [Attr(ATTR_PAYLOAD, |payload|, payload)])
      == [seqN / 256, seqN % 256, 0, 0, 0, 32, 0, 0, 1, 1, n / 256, n % 256] + payload
  {
    var a := Attr(ATTR_PAYLOAD, |payload|, payload);
    assert [a][1..] == [];
    assert EncodeAttrs([a]) == EncodeAttr(a);
  }

  /** The attributes follow one another. */
  lemma {:induction false} AttrsInOrder(attrs: seq<Attr>, more: seq<Attr>)
    ensures EncodeAttrs(attrs + more) == EncodeAttrs(attrs) + EncodeAttrs(more)
    ensures |attrs| == 1 ==> EncodeAttrs(attrs) == EncodeAttr(attrs[0])
    decreases |attrs|
  {
    if attrs == [] {
      assert attrs + more == more;
    } else {
      assert (attrs + more)[0] == attrs[0] && (attrs + more)[1..] == attrs[1..] + more;
      AttrsInOrder(attrs[1..], more);
    }
  }

  // ---------- parsing ----------

  function DecodeU16(bs: bytes): u16
    requires |bs| == 2
  {
    bs[0] as int * 256 + bs[1] as int
  }

  function DecodeHeader(bs: bytes): Header
    requires 9 <= |bs|
  {
    Header(DecodeU16(bs[0..2]), DecodeU16(bs[2..4]), DecodeU16(bs[4..6]), DecodeU16(bs[6..8]), bs[8])
  }

  function ParseAttr(bs: bytes): Option<Attr> {
    if |bs| < 3 then None
    else
      var l := (DecodeU16(bs[1..3]) - 3) % 65536;
      if |bs| - 3 < l then None else Some(Attr(bs[0], l, bs[3..3 + l]))
  }

  /** The attributes that parse, at most `n`, and what follows them. */
  function ParsePrefix(bs: bytes, n: nat): (seq<Attr>, bytes)
    decreases n
  {
    if n == 0 then ([], bs)
    else
      match ParseAttr(bs)
      case None => ([], bs)
      case Some(a) =>
        var (attrs, rest) := ParsePrefix(bs[3 + |a.v|..], n - 1);
        ([a] + attrs, rest)
  }

  /** `UnMarshall` accepts: there is a header, and all the attributes it announces. */
  predicate Accepts(bs: bytes) {
    9 <= |bs| && |ParsePrefix(bs[9..], bs[8]).0| == bs[8]
  }

  /** The last value of each type. */
  function MapOf(attrs: seq<Attr>): map<byte, bytes> {
    if attrs == [] then map[]
    else MapOf(attrs[..|attrs| - 1])[attrs[|attrs| - 1].t := attrs[|attrs| - 1].v]
  }

  predicate HasType(attrs: seq<Attr>, i: nat, t: byte) {
    i < |attrs| && attrs[i].t == t
  }

  /** The map has just the types that occur, each with the value of its last occurrence. */
  lemma {:induction false} MapHoldsLast(attrs: seq<Attr>, t: byte)
    ensures t in MapOf(attrs) <==> exists i: nat :: HasType(attrs, i, t)
    ensures forall i: nat :: HasType(attrs, i, t) && (forall j :: i < j < |attrs| ==> attrs[j].t != t) ==>
              MapOf(attrs)[t] == attrs[i].v
    decreases |attrs|
  {
    if attrs != [] {
      var front, k := attrs[..|attrs| - 1], |attrs| - 1;
      MapHoldsLast(front, t);
      assert forall i: nat :: HasType(front, i, t) ==> HasType(attrs, i, t);
      assert attrs[k].t == t ==> HasType(attrs, k, t);
      forall i: nat | HasType(attrs, i, t)
        ensures t in MapOf(attrs)
      {
        assert i < k ==> HasType(front, i, t);
      }
    }
  }

  // ---------- the two are inverse ----------

  /** Header and attributes agree with each other: the condition for a faithful trip. */
  predicate WellFormed(h: Header, attrs: seq<Attr>) {
    h.attrNum == |attrs| && forall a :: a in attrs ==> a.l == |a.v|
  }

  lemma HeaderRoundTrip(h: Header, rest: bytes)
    ensures |EncodeHeader(h)| == 9
    ensures DecodeHeader(EncodeHeader(h) + rest) == h
    ensures (EncodeHeader(h) + rest)[9..] == rest
  {
    var bs := EncodeHeader(h) + rest;
    assert bs[0..2] == EncodeU16(h.seqN);
    assert bs[2..4] == EncodeU16(h.ackN);
    assert bs[4..6] == EncodeU16(h.flag);
    assert bs[6..8] == EncodeU16(h.winSize);
  }

  lemma AttrRoundTrip(a: Attr, rest: bytes)
    requires a.l == |a.v|
    ensures ParseAttr(EncodeAttr(a) + rest) == Some(a)
    ensures (EncodeAttr(a) + rest)[3 + |a.v|..] == rest
  {
    var bs := EncodeAttr(a) + rest;
    assert bs[1..3] == EncodeU16((a.l + 3) % 65536);
    assert bs[3..3 + a.l] == a.v;
  }

  lemma {:induction false} AttrsRoundTrip(attrs: seq<Attr>, rest: bytes)
    requires forall a :: a in attrs ==> a.l == |a.v|
    ensures ParsePrefix(EncodeAttrs(attrs) + rest, |attrs|) == (attrs, rest)
    decreases |attrs|
  {
    if attrs == [] {
      assert EncodeAttrs(attrs) + rest == rest;
    } else {
      var tail := EncodeAttrs(attrs[1..]) + rest;
      assert EncodeAttrs(attrs) + rest == EncodeAttr(attrs[0]) + tail;
      AttrRoundTrip(attrs[0], tail);
      AttrsRoundTrip(attrs[1..], rest);
      assert [attrs[0]] + attrs[1..] == attrs;
    }
  }

  /** Every attribute that parses declares the length of its value. */
  lemma {:induction false} ParsedLengths(bs: bytes, n: nat)
    ensures forall a :: a in ParsePrefix(bs, n).0 ==> a.l == |a.v|
    ensures |ParsePrefix(bs, n).0| <= n
    decreases n
  {
    if n > 0 && ParseAttr(bs).Some? {
      ParsedLengths(bs[3 + |ParseAttr(bs).value.v|..], n - 1);
    }
  }

  /** Parsing what was printed gives the message back, and leaves nothing, exactly when the announced count and
      lengths are the real ones. A length that wraps when 3 is added unwraps when 3 is taken away. */
  lemma UnMarshallAfterMarshall(h: Header, attrs: seq<Attr>)
    ensures var bs := Encode(h, attrs);
      Accepts(bs) && DecodeHeader(bs) == h && ParsePrefix(bs[9..], bs[8]) == (attrs, [])
      <==> WellFormed(h, attrs)
  {
    var bs := Encode(h, attrs);
    HeaderRoundTrip(h, EncodeAttrs(attrs));
    ParsedLengths(bs[9..], bs[8]);
    if WellFormed(h, attrs) {
      AttrsRoundTrip(attrs, []);
      assert EncodeAttrs(attrs) + [] == EncodeAttrs(attrs);
    }
  }

  lemma HeaderPrints(bs: bytes)
    requires 9 <= |bs|
    ensures EncodeHeader(DecodeHeader(bs)) == bs[..9]
  {
  }

  lemma AttrPrints(bs: bytes)
    requires ParseAttr(bs).Some?
    ensures var a := ParseAttr(bs).value; bs == EncodeAttr(a) + bs[3 + |a.v|..]
  {
    var a := ParseAttr(bs).value;
    var raw := DecodeU16(bs[1..3]);
    assert (a.l + 3) % 65536 == raw;
    assert EncodeU16(raw) == bs[1..3];
  }

  lemma EncodeAttrsCons(bs: bytes, a: Attr, tail: bytes, attrs: seq<Attr>, rest: bytes)
    requires bs == EncodeAttr(a) + tail && tail == EncodeAttrs(attrs) + rest
    ensures bs == EncodeAttrs([a] + attrs) + rest
  {
    assert ([a] + attrs)[1..] == attrs;
    assert EncodeAttr(a) + (EncodeAttrs(attrs) + rest) == EncodeAttr(a) + EncodeAttrs(attrs) + rest;
  }

  lemma ParsePrefixCons(bs: bytes, n: nat, a: Attr)
    requires 0 < n && ParseAttr(bs) == Some(a)
    ensures 3 + |a.v| <= |bs|
    ensures var (attrs, rest) := ParsePrefix(bs[3 + |a.v|..], n - 1);
      ParsePrefix(bs, n) == ([a] + attrs, rest)
  {
  }

  /** The first attribute, and what is left to parse. */
  lemma FirstAttr(bs: bytes, n: nat) returns (a: Attr, tail: bytes)
    requires 0 < n && ParseAttr(bs).Some?
    ensures bs == EncodeAttr(a) + tail
    ensures ParsePrefix(bs, n) == ([a] + ParsePrefix(tail, n - 1).0, ParsePrefix(tail, n - 1).1)
  {
    a := ParseAttr(bs).value;
    AttrPrints(bs);
    ParsePrefixCons(bs, n, a);
    tail := bs[3 + |a.v|..];
  }

  lemma NothingParses(bs: bytes, n: nat)
    requires n == 0 || ParseAttr(bs).None?
    ensures ParsePrefix(bs, n) == ([], bs)
    ensures bs == EncodeAttrs([]) + bs
  {
  }

  lemma {:induction false} AttrsPrint(bs: bytes, n: nat)
    ensures bs == EncodeAttrs(ParsePrefix(bs, n).0) + ParsePrefix(bs, n).1
    decreases n
  {
    if n == 0 || ParseAttr(bs).None? {
      NothingParses(bs, n);
    } else {
      var a, tail := FirstAttr(bs, n);
      AttrsPrint(tail, n - 1);
      EncodeAttrsCons(bs, a, tail, ParsePrefix(tail, n - 1).0, ParsePrefix(tail, n - 1).1);
    }
  }

  /** Printing what was parsed gives back exactly the bytes consumed, whatever lengths they declare. */
  lemma MarshallAfterUnMarshall(bs: bytes)
    requires Accepts(bs)
    ensures var (attrs, rest) := ParsePrefix(bs[9..], bs[8]); bs == Encode(DecodeHeader(bs), attrs) + rest
  {
    HeaderPrints(bs);
    AttrsPrint(bs[9..], bs[8]);
    assert bs == bs[..9] + bs[9..];
  }

  // ---------- the message object ----------

  /** The next attribute of a parse in progress. */
  lemma {:induction false} ParsePrefixSnoc(bs: bytes, n: nat)
    requires |ParsePrefix(bs, n).0| == n
    ensures var (attrs, rest) := ParsePrefix(bs, n);
      ParsePrefix(bs, n + 1)
      == match ParseAttr(rest)
         case None => (attrs, rest)
         case Some(a) => (attrs + [a], rest[3 + |a.v|..])
    decreases n
  {
    if n > 0 {
      var a := ParseAttr(bs).value;
      ParsePrefixCons(bs, n, a);
      ParsePrefixCons(bs, n + 1, a);
      var tail := bs[3 + |a.v|..];
      ParsePrefixSnoc(tail, n - 1);
      var (attrs, rest) := ParsePrefix(tail, n - 1);
      if ParseAttr(rest).Some? {
        var b := ParseAttr(rest).value;
        assert [a] + (attrs + [b]) == ([a] + attrs) + [b];
      }
    } else if ParseAttr(bs).Some? {
      ParsePrefixCons(bs, 1, ParseAttr(bs).value);
      assert [ParseAttr(bs).value] + [] == [] + [ParseAttr(bs).value];
    }
  }

  /** A parse that stopped early stays stopped. */
  lemma {:induction false} ParsePrefixStuck(bs: bytes, n: nat, total: nat)
    requires n <= total && |ParsePrefix(bs, n).0| < n
    ensures ParsePrefix(bs, total) == ParsePrefix(bs, n)
    decreases n
  {
    if ParseAttr(bs).Some? {
      ParsePrefixStuck(bs[3 + |ParseAttr(bs).value.v|..], n - 1, total - 1);
    }
  }

  lemma {:induction false} EncodeAttrsSnoc(attrs: seq<Attr>, a: Attr)
    ensures EncodeAttrs(attrs + [a]) == EncodeAttrs(attrs) + EncodeAttr(a)
    decreases |attrs|
  {
    if attrs == [] {
      assert attrs + [a] == [a];
    } else {
      assert (attrs + [a])[1..] == attrs[1..] + [a];
      EncodeAttrsSnoc(attrs[1..], a);
    }
  }

  /** The header after reading what there is of a message too short to have one. */
  function PartOfHeader(h: Header, bs: bytes): Header
    requires |bs| < 9
  {
    h.(seqN := if |bs| < 2 then h.seqN else DecodeU16(bs[0..2]),
       ackN := if |bs| < 4 then h.ackN else DecodeU16(bs[2..4]),
       flag := if |bs| < 6 then h.flag else DecodeU16(bs[4..6]),
       winSize := if |bs| < 8 then h.winSize else DecodeU16(bs[6..8]))
  }

  class Message {
    var header: Header
    var attr: seq<Attr>
    var attrMaps: map<byte, bytes>

    constructor ()
      ensures header == Header(0, 0, 0, 0, 0) && attr == [] && attrMaps == map[]
    {
      header := Header(0, 0, 0, 0, 0);
      attr := [];
      attrMaps := map[];
    }

    /** `newMessage`: overwrites the header and leaves the attributes. A builder that sets none, called on a message
        that still has some, gives one that does not survive the trip. */
    method NewMessage(flag: u16, seqN: u16, ackN: u16, winSize: u16)
      modifies this`header
      ensures header == Header(seqN, ackN, flag, winSize, 0)
      ensures WellFormed(header, attr) <==> attr == []
    {
      header := Header(seqN, ackN, flag, winSize, 0);
    }

    method PAYLOAD(seqN: u16, payload: bytes)
      modifies this`header, this`attr
      ensures header == Header(seqN, 0, FLAG_PAYLOAD, 0, 1)
      ensures attr == [Attr(ATTR_PAYLOAD, |payload| % 65536, payload)]
      ensures WellFormed(header, attr) <==> |payload| < 65536
    {
      NewMessage(FLAG_PAYLOAD, seqN, 0, 0);
      attr := [Attr(ATTR_PAYLOAD, |payload| % 65536, payload)];
      header := header.(attrNum := |attr|);
    }

    method Marshall() returns (bs: bytes)
      ensures bs == Encode(header, attr)
    {
      bs := EncodeU16(header.seqN);
      bs := bs + EncodeU16(header.ackN);
      bs := bs + EncodeU16(header.flag);
      bs := bs + EncodeU16(header.winSize);
      bs := bs + [header.attrNum];
      for i := 0 to |attr|
        invariant bs == EncodeHeader(header) + EncodeAttrs(attr[..i])
      {
        var v := attr[i];
        EncodeAttrsSnoc(attr[..i], v);
        assert attr[..i + 1] == attr[..i] + [v];
        bs := bs + [v.t];
        bs := bs + EncodeU16((v.l + 3) % 65536);
        bs := bs + v.v;
      }
      assert attr[..|attr|] == attr;
    }

    /** The attribute loop of `UnMarshall`. */
    method ReadAttrs(body: bytes) returns (ok: bool)
      modifies this`attr, this`attrMaps
      ensures |attr| == header.attrNum
      ensures var parsed := ParsePrefix(body, header.attrNum).0;
        (ok <==> |parsed| == header.attrNum) && parsed <= attr && attrMaps == MapOf(parsed)
    {
      attr := seq(header.attrNum, _ => Attr(0, 0, []));
      attrMaps := map[];
      var buf := body;
      for i := 0 to header.attrNum
        invariant |attr| == header.attrNum
        invariant ParsePrefix(body, i) == (attr[..i], buf)
        invariant attrMaps == MapOf(attr[..i])
      {
        ParsePrefixSnoc(body, i);
        match ParseAttr(buf) {
          case None =>
            ParsePrefixStuck(body, i + 1, header.attrNum);
            return false;
          case Some(a) =>
            buf := buf[3 + |a.v|..];
            attr := attr[i := a];
            assert attr[..i + 1] == attr[..i] + [a];
            attrMaps := attrMaps[a.t := a.v];
        }
      }
      ok := true;
    }

    /** On an error the header, if it was there, and the attributes before the bad one are set all the same. */
    method UnMarshall(message: bytes) returns (ok: bool)
      modifies this
      ensures ok <==> Accepts(message)
      ensures 9 <= |message| ==>
                && header == DecodeHeader(message)
                && |attr| == header.attrNum
                && var parsed := ParsePrefix(message[9..], header.attrNum).0;
                   parsed <= attr && attrMaps == MapOf(parsed)
      ensures |message| < 9 ==>
                attr == old(attr) && attrMaps == old(attrMaps) && header == PartOfHeader(old(header), message)
    {
      if |message| < 2 { return false; }
      header := header.(seqN := DecodeU16(message[0..2]));
      if |message| < 4 { return false; }
      header := header.(ackN := DecodeU16(message[2..4]));
      if |message| < 6 { return false; }
      header := header.(flag := DecodeU16(message[4..6]));
      if |message| < 8 { return false; }
      header := header.(winSize := DecodeU16(message[6..8]));
      if |message| < 9 { return false; }
      header := header.(attrNum := message[8]);
      ok := ReadAttrs(message[9..]);
    }
  }
}
