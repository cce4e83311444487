/**
 The SOCKS5 wire codec (pkg/socks5): the two request parsers as they move a reader over the
 received frame, the encoders, and a grammar that says which frames sections 3 to 6 of
 RFC 1928 describe.
 */
module Socks5 {
  import opened Bytes

  const METHOD_NO_AUTH_REQUIRED: Byte := 0x00

  const ATYPE_IPV4: Byte := 0x01
  const ATYPE_DOMAIN_NAME: Byte := 0x03
  const ATYPE_IPV6: Byte := 0x04

  const CMD_CONNECT: Byte := 0x01
  const CMD_BIND: Byte := 0x02
  const CMD_UDP_ASSOCIATE: Byte := 0x03

  const REP_SUCCEEDED: Byte := 0x00

  /** `EndOfInput` is the reader's own error; every other one is raised by a parser. */
  datatype ParseError =
    | EndOfInput
    | ShortRead
    | BadVersion
    | BadCommand
    | EmptyDomainName
    | UnknownAddressType

  datatype Request = Request(ver: Byte, cmd: Byte, rsv: Byte, aTyp: Byte, dstAddr: seq<Byte>, dstPort: Uint16)

  datatype MethodRequest = MethodRequest(ver: Byte, nMethods: Byte, methods: seq<Byte>)

  datatype Reply = Reply(ver: Byte, rep: Byte, rsv: Byte, aTyp: Byte, bndAddr: seq<Byte>, bndPort: Uint16) {
    function Pack(): seq<Byte> {
      [ver, rep, rsv, aTyp] + bndAddr + BigEndian(bndPort)
    }
  }

  function NewReply(rep: Byte, aTyp: Byte, bndAddr: seq<Byte>, bndPort: Uint16): Reply {
    Reply(5, rep, 0, aTyp, bndAddr, bndPort)
  }

  datatype MethodReply = MethodReply(ver: Byte, method_: Byte) {
    function Encode(): seq<Byte> {
      [ver, method_]
    }
  }

  function NewMethodReply(m: Byte): MethodReply {
    MethodReply(5, m)
  }

  /**
   An in-memory reader. At the end of its input `Read` fails, even into an empty buffer;
   before the end it never fails and may return fewer octets than the buffer holds.
   */
  class Reader {
    const s: seq<Byte>
    var i: nat

    ghost predicate Valid()
      reads this
    {
      i <= |s|
    }

    constructor (b: seq<Byte>)
      ensures Valid() && s == b && i == 0
    {
      s := b;
      i := 0;
    }

    method Read(buf: array<Byte>) returns (n: nat, err: Option<ParseError>)
      requires Valid()
      modifies this, buf
      ensures Valid()
      ensures old(i) == |s| ==> err == Some(EndOfInput) && n == 0 && i == old(i) && buf[..] == old(buf[..])
      ensures old(i) < |s| ==>
                && err == None
                && n == (if buf.Length <= |s| - old(i) then buf.Length else |s| - old(i))
                && i == old(i) + n
                && buf[..n] == s[old(i)..i]
                && buf[n..] == old(buf[n..])
    {
      if i >= |s| {
        return 0, Some(EndOfInput);
      }
      n := if buf.Length <= |s| - i then buf.Length else |s| - i;
      err := None;
      forall k | 0 <= k < n {
        buf[k] := s[i + k];
      }
      i := i + n;
    }
  }

  /** The `n` octets that one read of `n` octets at position `at` must deliver. */
  function Take(b: seq<Byte>, at: nat, n: nat): (r: Result<seq<Byte>, ParseError>)
    requires at <= |b|
    ensures r.Success? ==> at + n <= |b| && |r.value| == n
  {
    if at == |b| then Failure(EndOfInput)
    else if |b| - at < n then Failure(ShortRead)
    else Success(b[at..at + n])
  }

  function TakeOne(b: seq<Byte>, at: nat): (r: Result<Byte, ParseError>)
    requires at <= |b|
    ensures r.Success? <==> at < |b|
    ensures r.Success? ==> r.value == b[at]
  {
    if at == |b| then Failure(EndOfInput) else Success(b[at])
  }

  predicate KnownCommand(c: Byte) {
    c == CMD_CONNECT || c == CMD_BIND || c == CMD_UDP_ASSOCIATE
  }

  /** The address field that starts at octet 4, with its length octet when it is a domain name. */
  function TakeAddress(b: seq<Byte>, aTyp: Byte): (r: Result<seq<Byte>, ParseError>)
    requires 4 <= |b|
    ensures r.Success? ==> 4 + |r.value| <= |b|
    ensures r.Success? ==> WellFormedAddress(aTyp, r.value)
  {
    if aTyp == ATYPE_IPV4 then Take(b, 4, 4)
    else if aTyp == ATYPE_IPV6 then Take(b, 4, 16)
    else if aTyp == ATYPE_DOMAIN_NAME then
      var len :- TakeOne(b, 4);
      if len == 0 then Failure(EmptyDomainName) else
      var name :- Take(b, 5, len);
      Success([len] + name)
    else Failure(UnknownAddressType)
  }

  /** What a request frame decodes to, field by field. */
  function ParseRequest(b: seq<Byte>): (r: Result<Request, ParseError>)
    ensures r.Success? ==> WellFormedAddress(r.value.aTyp, r.value.dstAddr)
  {
    var ver :- TakeOne(b, 0);
    if ver != 5 then Failure(BadVersion) else
    var cmd :- TakeOne(b, 1);
    if !KnownCommand(cmd) then Failure(BadCommand) else
    var rsv :- TakeOne(b, 2);
    var aTyp :- TakeOne(b, 3);
    var addr :- TakeAddress(b, aTyp);
    var port :- Take(b, 4 + |addr|, 2);
    Success(Request(ver, cmd, rsv, aTyp, addr, FromBigEndian(port)))
  }

  function ParseMethodRequest(b: seq<Byte>): Result<MethodRequest, ParseError> {
    var ver :- TakeOne(b, 0);
    if ver != 5 then Failure(BadVersion) else
    var n :- TakeOne(b, 1);
    var methods :- Take(b, 2, n);
    Success(MethodRequest(ver, n, methods))
  }

  /** Reads one field: a fresh buffer, one read, and the check that the read filled it. */
  method ReadField(reader: Reader, size: nat) returns (field: seq<Byte>, err: Option<ParseError>)
    requires reader.Valid()
    modifies reader
    ensures reader.Valid()
    ensures Take(reader.s, old(reader.i), size) == if err.Some? then Failure(err.value) else Success(field)
    ensures err.None? ==> reader.i == old(reader.i) + size
  {
    field := [];
    var buf := new Byte[size];
    var n;
    n, err := reader.Read(buf);
    if err.Some? {
      return;
    }
    if n != size {
      return field, Some(ShortRead);
    }
    assert buf[..] == buf[..n];
    field := buf[..];
  }

  method NewMethodRequestFrom(b: seq<Byte>) returns (mr: MethodRequest, err: Option<ParseError>)
    ensures ParseMethodRequest(b) == if err.Some? then Failure(err.value) else Success(mr)
  {
    mr := MethodRequest(0, 0, []);
    var reader := new Reader(b);
    var ver, mMethods, methods;
    ver, err := ReadField(reader, 1);
    if err.Some? {
      return;
    }
    if ver[0] != 5 {
      return mr, Some(BadVersion);
    }
    mr := mr.(ver := ver[0]);

    mMethods, err := ReadField(reader, 1);
    if err.Some? {
      return;
    }
    mr := mr.(nMethods := mMethods[0]);

    methods, err := ReadField(reader, mMethods[0]);
    if err.Some? {
      return;
    }
    mr := mr.(methods := methods);
  }

  /** Reads the address field of a request whose first four octets have been consumed. */
  method ReadAddress(reader: Reader, aTyp: Byte) returns (dstAddr: seq<Byte>, err: Option<ParseError>)
    requires reader.Valid() && reader.i == 4
    modifies reader
    ensures reader.Valid()
    ensures TakeAddress(reader.s, aTyp) == if err.Some? then Failure(err.value) else Success(dstAddr)
    ensures err.None? ==> reader.i == 4 + |dstAddr|
  {
    dstAddr, err := [], None;
    if aTyp == ATYPE_IPV4 {
      dstAddr, err := ReadField(reader, 4);
    } else if aTyp == ATYPE_IPV6 {
      dstAddr, err := ReadField(reader, 16);
    } else if aTyp == ATYPE_DOMAIN_NAME {
      var domainNameLen, domainName;
      domainNameLen, err := ReadField(reader, 1);
      if err.Some? {
        return;
      }
      if domainNameLen[0] == 0 {
        return dstAddr, Some(EmptyDomainName);
      }
      domainName, err := ReadField(reader, domainNameLen[0]);
      if err.Some? {
        return;
      }
      assert domainNameLen == [domainNameLen[0]];
      dstAddr := domainNameLen + domainName;
    } else {
      err := Some(UnknownAddressType);
    }
  }

  method NewRequestFrom(b: seq<Byte>) returns (request: Request, err: Option<ParseError>)
    ensures ParseRequest(b) == if err.Some? then Failure(err.value) else Success(request)
  {
    request := Request(0, 0, 0, 0, [], 0);
    var reader := new Reader(b);
    var ver, cmd, rsv, aTyp, dstAddr, dstPort;
    ver, err := ReadField(reader, 1);
    if err.Some? {
      return;
    }
    if ver[0] != 5 {
      return request, Some(BadVersion);
    }
    request := request.(ver := ver[0]);

    cmd, err := ReadField(reader, 1);
    if err.Some? {
      return;
    }
    if cmd[0] != CMD_CONNECT && cmd[0] != CMD_BIND && cmd[0] != CMD_UDP_ASSOCIATE {
      return request, Some(BadCommand);
    }
    request := request.(cmd := cmd[0]);

    rsv, err := ReadField(reader, 1);
    if err.Some? {
      return;
    }
    request := request.(rsv := rsv[0]);

    aTyp, err := ReadField(reader, 1);
    if err.Some? {
      return;
    }
    request := request.(aTyp := aTyp[0]);

    dstAddr, err := ReadAddress(reader, request.aTyp);
    if err.Some? {
      return;
    }
    request := request.(dstAddr := dstAddr);

    dstPort, err := ReadField(reader, 2);
    if err.Some? {
      return;
    }
    request := request.(dstPort := FromBigEndian(dstPort));
  }

  // ----- The grammar

  /** A complete address field of the given type. */
  predicate WellFormedAddress(aTyp: Byte, a: seq<Byte>) {
    || (aTyp == ATYPE_IPV4 && |a| == 4)
    || (aTyp == ATYPE_IPV6 && |a| == 16)
    || (aTyp == ATYPE_DOMAIN_NAME && 2 <= |a| && |a| == 1 + a[0] as int)
  }

  predicate WellFormed(r: Request) {
    r.ver == 5 && KnownCommand(r.cmd) && WellFormedAddress(r.aTyp, r.dstAddr)
  }

  /** The layout of section 4 of RFC 1928. */
  function Layout(r: Request): seq<Byte> {
    [r.ver, r.cmd, r.rsv, r.aTyp] + r.dstAddr + BigEndian(r.dstPort)
  }

  /** Any continuation of a well-formed message decodes to that message. */
  lemma LayoutParses(r: Request, tail: seq<Byte>)
    requires WellFormed(r)
    ensures ParseRequest(Layout(r) + tail) == Success(r)
  {
    var b := Layout(r) + tail;
    var k := 4 + |r.dstAddr|;
    assert b[4..k] == r.dstAddr;
    assert b[k..k + 2] == BigEndian(r.dstPort);
    BigEndianInverse(r.dstPort, BigEndian(r.dstPort));
    if r.aTyp == ATYPE_DOMAIN_NAME {
      assert b[4] == r.dstAddr[0];
      assert b[5..5 + b[4]] == r.dstAddr[1..];
      assert [b[4]] + b[5..5 + b[4]] == r.dstAddr;
    }
  }

  /** An accepted frame starts with the layout of what it decoded to. */
  lemma ParsedIsLaidOut(b: seq<Byte>)
    requires ParseRequest(b).Success?
    ensures WellFormed(ParseRequest(b).value)
    ensures Layout(ParseRequest(b).value) <= b
  {
    var r := ParseRequest(b).value;
    var k := 4 + |r.dstAddr|;
    assert b[4..k] == r.dstAddr;
    BigEndianInverse(r.dstPort, b[k..k + 2]);
    assert b[..k + 2] == b[..4] + b[4..k] + b[k..k + 2];
    assert b[..4] == [r.ver, r.cmd, r.rsv, r.aTyp];
  }

  /** Exactness: a frame is accepted, as `r`, when and only when it starts with the layout of a well-formed `r`. */
  lemma RequestParserExact(b: seq<Byte>, r: Request)
    ensures ParseRequest(b) == Success(r) <==> WellFormed(r) && Layout(r) <= b
  {
    if ParseRequest(b) == Success(r) {
      ParsedIsLaidOut(b);
    }
    if WellFormed(r) && Layout(r) <= b {
      assert b == Layout(r) + b[|Layout(r)|..];
      LayoutParses(r, b[|Layout(r)|..]);
    }
  }

  /** Length of the address field announced by an address type and the octet after it; 0 when there is none. */
  function AddressLength(aTyp: Byte, first: Byte): nat {
    if aTyp == ATYPE_IPV4 then 4
    else if aTyp == ATYPE_IPV6 then 16
    else if aTyp == ATYPE_DOMAIN_NAME && first != 0 then 1 + first
    else 0
  }

  /** Acceptance as a test on the octets alone. */
  lemma RequestAcceptedIff(b: seq<Byte>)
    ensures ParseRequest(b).Success? <==>
              && 5 <= |b| && b[0] == 5 && 1 <= b[1] <= 3
              && 0 < AddressLength(b[3], b[4])
              && 4 + AddressLength(b[3], b[4]) + 2 <= |b|
  {
  }

  /** As far as the frame goes, version and command are right. */
  predicate GoodStart(b: seq<Byte>) {
    (|b| >= 1 ==> b[0] == 5) && (|b| >= 2 ==> 1 <= b[1] <= 3)
  }

  /**
   Why a request is refused: the first of the checks that fails, in the order of the octets. Running out of octets is
   the reader's own error where a read begins at the end of the frame, and a short read where it begins before.
   */
  lemma RequestRefusedBecause(b: seq<Byte>)
    ensures ParseRequest(b) == Failure(BadVersion) <==> |b| >= 1 && b[0] != 5
    ensures ParseRequest(b) == Failure(BadCommand) <==> |b| >= 2 && b[0] == 5 && !(1 <= b[1] <= 3)
    ensures ParseRequest(b) == Failure(UnknownAddressType) <==>
              |b| >= 4 && GoodStart(b) && b[3] != ATYPE_IPV4 && b[3] != ATYPE_DOMAIN_NAME && b[3] != ATYPE_IPV6
    ensures ParseRequest(b) == Failure(EmptyDomainName) <==>
              |b| >= 5 && GoodStart(b) && b[3] == ATYPE_DOMAIN_NAME && b[4] == 0
    ensures ParseRequest(b) == Failure(EndOfInput) <==>
              && GoodStart(b)
              && (|| |b| <= 3
                  || (|b| == 4 && b[3] in {ATYPE_IPV4, ATYPE_DOMAIN_NAME, ATYPE_IPV6})
                  || (|b| == 5 && b[3] == ATYPE_DOMAIN_NAME && b[4] != 0)
                  || (|b| > 4 && 0 < AddressLength(b[3], b[4]) && |b| == 4 + AddressLength(b[3], b[4])))
  {
  }

  /** Octets after an accepted request change nothing. */
  lemma RequestExtension(b: seq<Byte>, more: seq<Byte>)
    requires ParseRequest(b).Success?
    ensures ParseRequest(b + more) == ParseRequest(b)
  {
    ParsedIsLaidOut(b);
    var r := ParseRequest(b).value;
    assert Layout(r) <= b + more;
    RequestParserExact(b + more, r);
  }

  /** No accepted message is a proper prefix of another. */
  lemma RequestPrefixFree(r1: Request, r2: Request)
    requires WellFormed(r1) && WellFormed(r2) && Layout(r1) <= Layout(r2)
    ensures r1 == r2
  {
    RequestParserExact(Layout(r2), r1);
    RequestParserExact(Layout(r2), r2);
  }

  /** The reply encoder and the request parser share one layout: packing and parsing give the fields back. */
  lemma ReplyRoundTrip(c: Byte, t: Byte, a: seq<Byte>, p: Uint16, tail: seq<Byte>)
    requires KnownCommand(c) && WellFormedAddress(t, a)
    ensures ParseRequest(NewReply(c, t, a, p).Pack() + tail) == Success(Request(5, c, 0, t, a, p))
  {
    LayoutParses(Request(5, c, 0, t, a, p), tail);
  }

  /** Packing the fields of any accepted request again reproduces what was consumed, reserved octet cleared. */
  lemma RepackAccepted(b: seq<Byte>)
    requires ParseRequest(b).Success?
    ensures var r := ParseRequest(b).value;
            var consumed := 4 + |r.dstAddr| + 2;
            && consumed <= |b|
            && NewReply(r.cmd, r.aTyp, r.dstAddr, r.dstPort).Pack() == b[..consumed][2 := 0]
  {
    ParsedIsLaidOut(b);
    var r := ParseRequest(b).value;
    assert b[..|Layout(r)|] == Layout(r);
  }

  /** The layout of section 3 of RFC 1928. */
  function MethodLayout(m: MethodRequest): seq<Byte> {
    [m.ver, m.nMethods] + m.methods
  }

  /**
   A method request is accepted, as `m`, when and only when the frame starts with the layout of a consistent `m` and has
   at least three octets: the reader fails at the end of its input, so a count of zero needs an octet after it.
   */
  lemma MethodRequestParserExact(b: seq<Byte>, m: MethodRequest)
    ensures ParseMethodRequest(b) == Success(m) <==>
              m.ver == 5 && |m.methods| == m.nMethods && MethodLayout(m) <= b && 3 <= |b|
  {
    if m.ver == 5 && |m.methods| == m.nMethods && MethodLayout(m) <= b {
      assert b[0] == MethodLayout(m)[0] && b[1] == MethodLayout(m)[1];
      assert b[2..2 + b[1]] == MethodLayout(m)[2..];
    }
    if ParseMethodRequest(b) == Success(m) {
      assert b[..2 + b[1]] == [b[0], b[1]] + b[2..2 + b[1]];
    }
  }

  /** Acceptance as a test on the octets alone. */
  lemma MethodRequestAcceptedIff(b: seq<Byte>)
    ensures ParseMethodRequest(b) == Failure(BadVersion) <==> 1 <= |b| && b[0] != 5
    ensures ParseMethodRequest(b) == Failure(EndOfInput) <==> |b| <= 2 && (1 <= |b| ==> b[0] == 5)
    ensures ParseMethodRequest(b).Success? <==> 3 <= |b| && b[0] == 5 && 2 + b[1] <= |b|
  {
  }
}
