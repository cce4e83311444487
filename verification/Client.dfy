/**
 The local client (pkg/core/client.go, pkg/core/conn.go, pkg/core/map.go) and the router object it asks
 (pkg/core/router.go): what one network event does to one connection. Dialling, resolving and submitting
 are outcomes handed in; `ClientRuns` puts many connections together.
 */
module Client {
  import opened Bytes
  import opened Reserved
  import opened Socks5
  import R = RouterProtocol
  import U = Updater

  datatype Status = StatusOpened | StatusMethodAccepted | StatusAccepted

  datatype Transport = Proxy | Direct

  datatype Addr = Addr(ip: Address, port: Uint16)

  /** The fields of a connection; a transport is present once its dial has succeeded. */
  datatype ConnValue = ConnValue(
    key: nat,
    status: Status,
    dstAddr: Option<Addr>,
    cmd: Byte,
    remoteConn: bool,
    tcpConn: bool
  )

  function NewConnValue(key: nat): ConnValue {
    ConnValue(key, StatusOpened, None, 0, false, false)
  }

  /** The transports that a connection has open. */
  function Transports(c: ConnValue): set<Transport> {
    (if c.remoteConn then {Proxy} else {}) + (if c.tcpConn then {Direct} else {})
  }

  datatype GnetAction = NoAction | CloseAction | ShutdownAction

  /** The websocket dial: failed, failed after the connection was made, or done, with the reply header as a number. */
  datatype DialOutcome = DialFails | CompressionFails | Dialled(reply: Option<int>)

  /** What the outside answers during one event. A resolver that succeeds returns at least one address. */
  datatype Env = Env(
    shutdown: bool,
    resolved: Option<Address>,
    dial: DialOutcome,
    directOk: bool,
    submitOk: bool
  )

  const HELLO: seq<Byte> := [5, 0]

  /** The reply frame: the code, the loopback address and the local port. */
  function ReplyFrame(code: int, port: Uint16): seq<Byte> {
    NewReply(code % 256, ATYPE_IPV4, [127, 0, 0, 1], port).Pack()
  }

  /** The dial of the selected side makes a connection. */
  predicate Connects(env: Env, selected: bool) {
    if selected then !env.dial.DialFails? else env.directOk
  }

  /** The dial of the selected side ends with something to answer: a reply header that is a number, or a connection. */
  predicate Answers(env: Env, selected: bool) {
    if selected then env.dial.Dialled? && env.dial.reply.Some? else env.directOk
  }

  /** The server's code, cut to an octet, or success. */
  function AnswerCode(env: Env, selected: bool): Byte
    requires Answers(env, selected)
  {
    if selected then env.dial.reply.value % 256 else REP_SUCCEEDED
  }

  /** The reply of section 6 of RFC 1928 with this code, the loopback address and this port. */
  predicate IsReplyFrame(f: seq<Byte>, code: Byte, port: Uint16) {
    f == [5, code, 0, ATYPE_IPV4, 127, 0, 0, 1] + BigEndian(port)
  }

  /** Where a request wants to go. */
  function GetDstAddrFromRequest(request: Request, resolved: Option<Address>): Option<Addr>
    requires WellFormedAddress(request.aTyp, request.dstAddr)
  {
    if request.aTyp == ATYPE_IPV4 || request.aTyp == ATYPE_IPV6 then Some(Addr(request.dstAddr, request.dstPort))
    else if request.aTyp == ATYPE_DOMAIN_NAME && resolved.Some? then Some(Addr(resolved.value, request.dstPort))
    else None
  }

  /** A method request that offers the method without authentication. */
  predicate GoodHello(frame: seq<Byte>) {
    ParseMethodRequest(frame).Success? && METHOD_NO_AUTH_REQUIRED in ParseMethodRequest(frame).value.methods
  }

  // ----- One event, as a function

  /** An event is finished without the router, or it needs the router's selection for an address. */
  datatype FirstHalf =
    | Finished(c: ConnValue, out: seq<Byte>, action: GnetAction)
    | Selecting(c: ConnValue, ip: Address)

  function Before(c: ConnValue, frame: seq<Byte>, env: Env): FirstHalf
    requires c.status.StatusAccepted? ==> c.dstAddr.Some?
  {
    match c.status
    case StatusOpened =>
      if GoodHello(frame) then Finished(c.(status := StatusMethodAccepted), HELLO, NoAction)
      else Finished(c, [], CloseAction)
    case StatusMethodAccepted =>
      (match ParseRequest(frame)
       case Failure(_) => Finished(c, [], CloseAction)
       case Success(request) =>
         match GetDstAddrFromRequest(request, env.resolved)
         case None => Finished(c.(dstAddr := None), [], CloseAction)
         case Some(addr) => Selecting(c.(dstAddr := Some(addr), cmd := request.cmd), addr.ip))
    case StatusAccepted =>
      Selecting(c, c.dstAddr.value.ip)
  }

  /** The rest of an event, once the router has selected; `sent` tells where the frame itself was written. */
  datatype SecondHalf =
    | NilTransport
    | Reacted(c: ConnValue, out: seq<Byte>, action: GnetAction, sent: Option<Transport>)

  function After(c: ConnValue, selected: bool, env: Env, port: Uint16): SecondHalf {
    if c.status.StatusMethodAccepted? then
      if selected then
        match env.dial
        case DialFails => Reacted(c.(remoteConn := false), [], CloseAction, None)
        case CompressionFails => Reacted(c.(remoteConn := true), [], CloseAction, None)
        case Dialled(None) => Reacted(c.(remoteConn := true), [], CloseAction, None)
        case Dialled(Some(code)) =>
          if env.submitOk
          then Reacted(c.(remoteConn := true, status := StatusAccepted), ReplyFrame(code, port), NoAction, None)
          else Reacted(c.(remoteConn := true), ReplyFrame(code, port), CloseAction, None)
      else if !env.directOk then Reacted(c.(tcpConn := false), [], CloseAction, None)
      else if env.submitOk
      then Reacted(c.(tcpConn := true, status := StatusAccepted), ReplyFrame(REP_SUCCEEDED, port), NoAction, None)
      else Reacted(c.(tcpConn := true), ReplyFrame(REP_SUCCEEDED, port), CloseAction, None)
    else if selected then
      if c.remoteConn then Reacted(c, [], NoAction, Some(Proxy)) else NilTransport
    else
      if c.tcpConn then Reacted(c, [], NoAction, Some(Direct)) else NilTransport
  }

  // ----- The objects

  class Conn {
    const key: nat
    var status: Status
    var dstAddr: Option<Addr>
    var cmd: Byte
    var remoteConn: bool
    var tcpConn: bool

    ghost function Value(): ConnValue
      reads this
    {
      ConnValue(key, status, dstAddr, cmd, remoteConn, tcpConn)
    }

    constructor (key: nat)
      ensures Value() == NewConnValue(key)
    {
      this.key := key;
      status := StatusOpened;
      dstAddr := None;
      cmd := 0;
      remoteConn := false;
      tcpConn := false;
    }
  }

  /** The connection table, keyed by remote address. */
  class ConnTable {
    var connMap: map<nat, Conn>

    constructor ()
      ensures connMap == map[]
    {
      connMap := map[];
    }

    method Put(conn: Conn)
      modifies this
      ensures connMap == old(connMap)[conn.key := conn]
    {
      connMap := connMap[conn.key := conn];
    }

    /** The type assertion comes before the presence test: an absent key is a panic, not a miss. */
    method Get(key: nat) returns (conn: Conn, ok: bool)
      requires key in connMap
      ensures ok && conn == connMap[key]
    {
      conn := connMap[key];
      ok := true;
    }

    method Delete(key: nat)
      modifies this
      ensures connMap == old(connMap) - {key}
    {
      connMap := connMap - {key};
    }
  }

  /** The router, with what its database file and the databases opened from it have come to. */
  class Router {
    var on: bool
    var geoIPDB: Option<R.DbId>
    var hashMap: map<Ip, bool>
    var mapped: set<R.DbId>
    var whole: bool
    var nextDb: R.DbId

    ghost function Config(): R.Config
      reads this
    {
      R.Config(on, geoIPDB)
    }

    /** The gate of the interleaved machine while no update is under way. */
    ghost function Gate(): R.Gate
      reads this
    {
      R.Gate(on, geoIPDB, mapped, nextDb, whole, false, R.Resting, 0)
    }

    constructor (gate: R.Gate)
      requires gate.updater.Resting? && !gate.writer && gate.rounds == 0
      ensures Gate() == gate && hashMap == map[]
    {
      on := gate.on;
      geoIPDB := gate.db;
      mapped := gate.mapped;
      whole := gate.whole;
      nextDb := gate.nextDb;
      hashMap := map[];
    }

    method SwitchOn()
      modifies this`on
      ensures on
    {
      on := true;
    }

    method SwitchOff()
      modifies this`on
      ensures !on
    {
      on := false;
    }

    /** The country lookup dereferences the database pointer, so the flag may be on only with a database. */
    method GetGeoIP(w: R.World, ip: Ip) returns (r: bool)
      requires on ==> geoIPDB.Some?
      ensures r == R.Decide(w, Config(), ip)
    {
      if w.reserved(ip) {
        return false;
      }
      if !on {
        return true;
      }
      var country := w.geo(geoIPDB.value, R.Key(ip));
      if country.LookupError? {
        return true;
      }
      return country != R.Domestic;
    }

    method GetCache(ip: Ip) returns (v: bool, ok: bool)
      ensures ok <==> R.Key(ip) in hashMap
      ensures v == if ok then hashMap[R.Key(ip)] else true
    {
      ok := R.Key(ip) in hashMap;
      v := if ok then hashMap[R.Key(ip)] else true;
    }

    method SetCache(ip: Ip, result: bool)
      modifies this`hashMap
      ensures hashMap == old(hashMap)[R.Key(ip) := result]
    {
      hashMap := hashMap[R.Key(ip) := result];
    }

    method RemoveCache(ip: Ip)
      modifies this`hashMap
      ensures hashMap == old(hashMap) - {R.Key(ip)}
    {
      hashMap := hashMap - {R.Key(ip)};
    }

    method Select(w: R.World, ip: Ip) returns (result: bool)
      requires on ==> geoIPDB.Some?
      modifies this`hashMap
      ensures result == R.Selection(w, old(hashMap), Config(), ip)
      ensures hashMap == old(hashMap)[R.Key(ip) := result]
    {
      var ok;
      result, ok := GetCache(ip);
      if !ok {
        result := GetGeoIP(w, ip);
        SetCache(ip, result);
      }
    }

    /** One database entry of the archive: close what is open, and write the file over. */
    method Replace(e: U.Replacing) returns (ok: bool)
      modifies this`mapped, this`whole
      ensures Gate() == U.Replaced(old(Gate()), e) && ok == U.Succeeds(e)
    {
      if geoIPDB.Some? && e.closes {
        mapped := mapped - {geoIPDB.value};
      }
      if !e.creates {
        return false;
      }
      whole := false;
      if !e.copies {
        return false;
      }
      whole := true;
      return true;
    }

    /** The walk over the archive's database entries. */
    method Walk(entries: seq<U.Replacing>) returns (ok: bool)
      modifies this`mapped, this`whole
      ensures Gate() == U.Walked(old(Gate()), entries) && ok == U.AllSucceed(entries)
    {
      for i := 0 to |entries|
        invariant U.AllSucceed(entries[..i])
        invariant Gate() == U.Walked(old(Gate()), entries[..i])
      {
        assert entries[..i + 1][..i] == entries[..i];
        ok := Replace(entries[i]);
        if !ok {
          assert entries[i] in entries;
          StopsAt(old(Gate()), entries, i);
          return false;
        }
      }
      assert entries[..|entries|] == entries;
      return true;
    }

    /** A whole download; a file that has not been written to its end does not open. */
    method Download(d: U.Downloading) returns (ok: bool)
      modifies this`on, this`geoIPDB, this`mapped, this`whole, this`nextDb
      ensures Gate() == U.Downloaded(old(Gate()), d) && ok == on
    {
      SwitchOff();
      if !d.fetched {
        return false;
      }
      ok := Walk(d.entries);
      if !ok || !d.walked {
        return false;
      }
      if !d.opens || !whole {
        geoIPDB := None;
        return false;
      }
      geoIPDB := Some(nextDb);
      mapped := mapped + {nextDb};
      nextDb := nextDb + 1;
      SwitchOn();
      return true;
    }
  }

  /** Nothing after a failed entry is looked at. */
  lemma {:induction false} StopsAt(g: R.Gate, entries: seq<U.Replacing>, i: nat)
    requires i < |entries| && !U.Succeeds(entries[i]) && U.AllSucceed(entries[..i])
    ensures U.Walked(g, entries) == U.Walked(g, entries[..i + 1])
    decreases |entries|
  {
    if i + 1 == |entries| {
      assert entries[..i + 1] == entries;
    } else {
      var before := entries[..|entries| - 1];
      assert entries[i] in before && before[..i] == entries[..i] && before[..i + 1] == entries[..i + 1];
      StopsAt(g, before, i);
    }
  }

  /** The whole event: both halves, with the answer the router gives in between. */
  function Reaction(c: ConnValue, frame: seq<Byte>, env: Env, port: Uint16, answer: Ip -> bool): SecondHalf
    requires c.status.StatusAccepted? ==> c.dstAddr.Some?
  {
    if env.shutdown then Reacted(c, [], ShutdownAction, None)
    else
      match Before(c, frame, env)
      case Finished(c', out, action) => Reacted(c', out, action, None)
      case Selecting(c', ip) => After(c', answer(ip), env, port)
  }

  // ----- What one event does, told without its two halves

  /** The first frame: accepted exactly when its octets are a method request that offers method 0. */
  lemma HelloExact(c: ConnValue, frame: seq<Byte>, env: Env, port: Uint16, answer: Ip -> bool)
    requires c.status.StatusOpened? && !env.shutdown
    ensures var offered := && |frame| >= 3 && frame[0] == 5 && |frame| >= 2 + frame[1] as int
                           && 0 in frame[2..2 + frame[1] as int];
            Reaction(c, frame, env, port, answer) ==
            if offered then Reacted(c.(status := StatusMethodAccepted), [5, 0], NoAction, None)
            else Reacted(c, [], CloseAction, None)
  {
    MethodRequestAcceptedIff(frame);
  }

  /** The end of the second event: what the dial on the selected side has come to. */
  lemma AfterExact(c: ConnValue, env: Env, selected: bool, port: Uint16)
    requires c.status.StatusMethodAccepted? && !c.remoteConn && !c.tcpConn
    ensures After(c, selected, env, port).Reacted?
    ensures var h, ok := After(c, selected, env, port), Answers(env, selected) && env.submitOk;
            && h.sent == None
            && h.c == c.(status := if ok then StatusAccepted else StatusMethodAccepted,
                         remoteConn := selected && Connects(env, selected),
                         tcpConn := !selected && Connects(env, selected))
            && h.action == (if ok then NoAction else CloseAction)
            && (h.out != [] <==> Answers(env, selected))
            && (h.out != [] ==> IsReplyFrame(h.out, AnswerCode(env, selected), port))
  {
  }

  /** A request that parses and whose destination is known, if need be by the resolver. */
  predicate Known(frame: seq<Byte>, resolved: Option<Address>) {
    && ParseRequest(frame).Success?
    && (ParseRequest(frame).value.aTyp == ATYPE_DOMAIN_NAME ==> resolved.Some?)
  }

  /** The address and port that a request names, or the resolver's answer for its domain name. */
  function Destination(frame: seq<Byte>, resolved: Option<Address>): Addr
    requires Known(frame, resolved)
  {
    var r := ParseRequest(frame).value;
    Addr(if r.aTyp == ATYPE_DOMAIN_NAME then resolved.value else r.dstAddr, r.dstPort)
  }

  /**
   The second frame: the connection is accepted exactly when it is a request with a known destination, the dial of the
   selected side has something to answer, and the relay goroutine is submitted; anything else closes. A transport is
   open afterwards exactly when its own dial has made a connection, and the answer, if any, is the reply with the dial's
   code.
   */
  lemma RequestExact(c: ConnValue, frame: seq<Byte>, env: Env, port: Uint16, answer: Ip -> bool)
    requires c.status.StatusMethodAccepted? && !c.remoteConn && !c.tcpConn && !env.shutdown
    ensures Reaction(c, frame, env, port, answer).Reacted?
    ensures var h, known := Reaction(c, frame, env, port, answer), Known(frame, env.resolved);
            var selected := known && answer(Destination(frame, env.resolved).ip);
            && h.c.key == c.key && h.sent == None
            && (h.c.status.StatusAccepted? <==> known && Answers(env, selected) && env.submitOk)
            && (!h.c.status.StatusAccepted? ==> h.c.status.StatusMethodAccepted?)
            && h.action == (if h.c.status.StatusAccepted? then NoAction else CloseAction)
            && (h.c.remoteConn <==> known && selected && Connects(env, true))
            && (h.c.tcpConn <==> known && !selected && Connects(env, false))
            && (known ==> h.c.dstAddr == Some(Destination(frame, env.resolved))
                          && h.c.cmd == ParseRequest(frame).value.cmd)
            && (h.out != [] <==> known && Answers(env, selected))
            && (h.out != [] ==> IsReplyFrame(h.out, AnswerCode(env, selected), port))
  {
    if Before(c, frame, env).Selecting? {
      AfterExact(Before(c, frame, env).c, env, answer(Destination(frame, env.resolved).ip), port);
    }
  }

  /** Every later frame goes, alone, to the transport the router selects, or meets none; nothing else changes. */
  lemma FrameExact(c: ConnValue, frame: seq<Byte>, env: Env, port: Uint16, answer: Ip -> bool)
    requires c.status.StatusAccepted? && c.dstAddr.Some? && !env.shutdown
    ensures var transport := if answer(c.dstAddr.value.ip) then Proxy else Direct;
            Reaction(c, frame, env, port, answer) ==
            if transport in Transports(c) then Reacted(c, [], NoAction, Some(transport)) else NilTransport
  {
  }

  /** The outcome of an event as the object shows it. */
  predicate Matches(h: SecondHalf, before: ConnValue, c: ConnValue, out: seq<Byte>, action: GnetAction,
                    sent: Option<Transport>, panicked: bool)
  {
    match h
    case NilTransport => panicked && c == before
    case Reacted(c', out', action', sent') => !panicked && c == c' && out == out' && action == action' && sent == sent'
  }

  class Client {
    const conns: ConnTable
    const router: Router
    const port: Uint16

    constructor (router: Router, port: Uint16)
      ensures this.router == router && this.port == port && fresh(conns) && conns.connMap == map[]
    {
      this.router := router;
      this.port := port;
      conns := new ConnTable();
    }

    ghost predicate Valid()
      reads this, conns, router, conns.connMap.Values
    {
      && (router.on ==> router.geoIPDB.Some?)
      && (forall k :: k in conns.connMap ==> conns.connMap[k].key == k)
      && (forall k :: k in conns.connMap ==>
            (conns.connMap[k].status.StatusAccepted? ==> conns.connMap[k].dstAddr.Some?))
      && (forall j, k :: j in conns.connMap && k in conns.connMap && j != k ==> conns.connMap[j] != conns.connMap[k])
    }

    /** Handles one frame. `panicked` stands for a write to a transport that was never opened. */
    method React(w: R.World, frame: seq<Byte>, key: nat, env: Env)
      returns (out: seq<Byte>, action: GnetAction, sent: Option<Transport>, panicked: bool)
      requires Valid() && key in conns.connMap
      modifies conns.connMap[key], router`hashMap
      ensures Valid()
      ensures env.shutdown ==> out == [] && action.ShutdownAction? && !panicked
                               && conns.connMap[key].Value() == old(conns.connMap[key].Value())
      ensures Matches(Reaction(old(conns.connMap[key].Value()), frame, env, port,
                               (ip: Ip) => R.Selection(w, old(router.hashMap), old(router.Config()), ip)),
                      old(conns.connMap[key].Value()), conns.connMap[key].Value(), out, action, sent, panicked)
    {
      out, action, sent, panicked := [], NoAction, None, false;
      if env.shutdown {
        action := ShutdownAction;
        return;
      }
      var conn, ok := conns.Get(key);
      if !ok {
        action := CloseAction;
        return;
      }
      match conn.status {
        case StatusOpened => out, action := ReactOpened(conn, frame, env);
        case StatusMethodAccepted => out, action := ReactMethodAccepted(w, conn, frame, env);
        case StatusAccepted => sent, panicked := ReactAccepted(w, conn);
      }
    }

    method ReactOpened(conn: Conn, frame: seq<Byte>, env: Env) returns (out: seq<Byte>, action: GnetAction)
      requires conn.status.StatusOpened?
      modifies conn
      ensures Before(old(conn.Value()), frame, env) == Finished(conn.Value(), out, action)
    {
      out, action := [], NoAction;
      var mr, err := NewMethodRequestFrom(frame);
      if err.Some? {
        action := CloseAction;
        return;
      }
      var noAuthRequired := false;
      for i := 0 to |mr.methods|
        invariant noAuthRequired <==> METHOD_NO_AUTH_REQUIRED in mr.methods[..i]
      {
        if mr.methods[i] == METHOD_NO_AUTH_REQUIRED {
          noAuthRequired := true;
          assert METHOD_NO_AUTH_REQUIRED in mr.methods;
          break;
        }
      }
      assert mr.methods[..|mr.methods|] == mr.methods;
      if noAuthRequired {
        out := NewMethodReply(METHOD_NO_AUTH_REQUIRED).Encode();
      } else {
        action := CloseAction;
        return;
      }
      conn.status := StatusMethodAccepted;
    }

    method ReactMethodAccepted(w: R.World, conn: Conn, frame: seq<Byte>, env: Env)
      returns (out: seq<Byte>, action: GnetAction)
      requires conn.status.StatusMethodAccepted? && (router.on ==> router.geoIPDB.Some?)
      modifies conn, router`hashMap
      ensures match Before(old(conn.Value()), frame, env)
              case Finished(c, o, a) => conn.Value() == c && out == o && action == a
              case Selecting(c, ip) =>
                var answer := R.Selection(w, old(router.hashMap), old(router.Config()), ip);
                After(c, answer, env, port) == Reacted(conn.Value(), out, action, None)
      ensures conn.status.StatusAccepted? ==> conn.dstAddr.Some?
    {
      out, action := [], NoAction;
      var request, err := NewRequestFrom(frame);
      if err.Some? {
        action := CloseAction;
        return;
      }
      conn.dstAddr := GetDstAddrFromRequest(request, env.resolved);
      if conn.dstAddr.None? {
        action := CloseAction;
        return;
      }
      conn.cmd := request.cmd;
      var selected := router.Select(w, conn.dstAddr.value.ip);
      if selected {
        out, action := Proxied(conn, env);
      } else {
        out, action := Connected(conn, env);
      }
    }

    /** Relays a frame; a failed write is logged and nothing more, so its outcome does not appear. */
    method ReactAccepted(w: R.World, conn: Conn) returns (sent: Option<Transport>, panicked: bool)
      requires conn.status.StatusAccepted? && conn.dstAddr.Some? && (router.on ==> router.geoIPDB.Some?)
      modifies router`hashMap
      ensures var answer := R.Selection(w, old(router.hashMap), old(router.Config()), conn.dstAddr.value.ip);
              match After(conn.Value(), answer, Env(false, None, DialFails, false, false), port)
              case NilTransport => panicked
              case Reacted(_, _, _, s) => !panicked && sent == s
    {
      sent, panicked := None, false;
      var selected := router.Select(w, conn.dstAddr.value.ip);
      if selected {
        if conn.remoteConn {
          sent := Some(Proxy);
        } else {
          panicked := true;
        }
      } else {
        if conn.tcpConn {
          sent := Some(Direct);
        } else {
          panicked := true;
        }
      }
    }

    /** The branch that dials the server. */
    method Proxied(conn: Conn, env: Env) returns (out: seq<Byte>, action: GnetAction)
      requires conn.status.StatusMethodAccepted?
      modifies conn
      ensures After(old(conn.Value()), true, env, port) == Reacted(conn.Value(), out, action, None)
    {
      out, action := [], NoAction;
      conn.remoteConn := !env.dial.DialFails?;
      if env.dial.DialFails? || env.dial.CompressionFails? {
        action := CloseAction;
        return;
      }
      if env.dial.reply.None? {
        action := CloseAction;
        return;
      }
      out := NewReply(env.dial.reply.value % 256, ATYPE_IPV4, [127, 0, 0, 1], port).Pack();
      if !env.submitOk {
        action := CloseAction;
        return;
      }
      conn.status := StatusAccepted;
    }

    /** The branch that dials the destination itself. */
    method Connected(conn: Conn, env: Env) returns (out: seq<Byte>, action: GnetAction)
      requires conn.status.StatusMethodAccepted?
      modifies conn
      ensures After(old(conn.Value()), false, env, port) == Reacted(conn.Value(), out, action, None)
    {
      out, action := [], NoAction;
      conn.tcpConn := env.directOk;
      if !env.directOk {
        action := CloseAction;
        return;
      }
      out := NewReply(REP_SUCCEEDED, ATYPE_IPV4, [127, 0, 0, 1], port).Pack();
      if !env.submitOk {
        action := CloseAction;
        return;
      }
      conn.status := StatusAccepted;
    }

    /** A remote address that is already in the table would be overwritten; live addresses are distinct. */
    method OnOpened(key: nat)
      requires Valid() && key !in conns.connMap
      modifies conns
      ensures Valid()
      ensures conns.connMap.Keys == old(conns.connMap.Keys) + {key}
      ensures fresh(conns.connMap[key]) && conns.connMap[key].Value() == NewConnValue(key)
      ensures forall k :: k in old(conns.connMap) ==> conns.connMap[k] == old(conns.connMap[k])
    {
      var conn := new Conn(key);
      conns.Put(conn);
    }

    /** `closed` are the transports that are closed with the connection. */
    method OnClosed(key: nat) returns (closed: set<Transport>)
      requires Valid() && key in conns.connMap
      modifies conns, router`hashMap
      ensures closed == Transports(old(conns.connMap[key].Value()))
      ensures Valid()
      ensures conns.connMap == old(conns.connMap) - {key}
      ensures var dst := old(conns.connMap[key].dstAddr);
              router.hashMap == if dst.Some? then old(router.hashMap) - {R.Key(dst.value.ip)} else old(router.hashMap)
    {
      closed := {};
      var conn, ok := conns.Get(key);
      if ok {
        if conn.remoteConn {
          closed := closed + {Proxy};
        }
        if conn.tcpConn {
          closed := closed + {Direct};
        }
        if conn.dstAddr.Some? {
          router.RemoveCache(conn.dstAddr.value.ip);
        }
      }
      conns.Delete(key);
    }
  }
}
