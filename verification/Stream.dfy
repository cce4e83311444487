/**
 One connection end to end (pkg/core/client.go, pkg/core/conn.go, pkg/core/server.go): the handshake frames, the
 relayed frames on their way to the destination, and the destination's stream on its way back through the server's
 buffer, the websocket, the client's relay goroutine and the event loop's write queue. Every stage may fail at
 any moment and then stops for good.
 */
module Stream {
  import opened Bytes
  import opened Socks5
  import opened Client
  import opened Reserved
  import CR = ClientRuns

  type Frame = seq<Byte>

  datatype State = State(
    c: ConnValue,
    closing: bool,
    head: seq<Byte>,            // history: what the handshake has answered
    frames: seq<Frame>,         // history: the frames received while accepted
    upBroken: bool,             // a write of the client to its transport has failed
    up: seq<Frame>,             // messages on their way to the server
    upDone: bool,               // the server's uplink goroutine has returned
    dest: seq<Byte>,            // what the destination has received
    pos: nat,                   // how much of the destination's stream has been read
    held: Option<seq<Byte>>,    // a chunk that waits for the bucket
    downDone: bool,             // the server's downlink goroutine has returned
    down: seq<seq<Byte>>,       // messages on their way to the client
    running: bool,              // the client's relay goroutine runs
    queue: seq<seq<Byte>>,      // asynchronous writes queued on the event loop
    local: seq<Byte>            // what the local application has received
  )

  function Init(key: nat): State {
    State(NewConnValue(key), false, [], [], false, [], false, [], 0, None, false, [], false, [], [])
  }

  datatype Action =
    | Event(frame: Frame, env: Env, selected: bool, written: Option<nat>)  // `written` octets only: the write fails
    | ServerUplink(written: Option<nat>)
    | ServerUplinkFails
    | ServerRead(n: nat)
    | ServerForward(ok: bool)
    | ServerDownlinkFails
    | ClientRelay(ok: bool)
    | ClientRelayFails
    | DirectRead(n: nat, ok: bool)
    | LoopWrite(n: nat)         // the event loop hands over the next octets of the oldest queued message

  function Cut(m: seq<Byte>, written: Option<nat>): seq<Byte> {
    if written.None? || written.value >= |m| then m else m[..written.value]
  }

  /** The frame of an accepted connection, on its way. */
  function Relay(s: State, frame: Frame, transport: Transport, written: Option<nat>): State {
    var s' := s.(frames := s.frames + [frame]);
    if s.upBroken then s'
    else if transport.Proxy? then
      if written.None? then s'.(up := s.up + [frame]) else s'.(upBroken := true)
    else s'.(dest := s.dest + Cut(frame, written), upBroken := written.Some?)
  }

  /** An event whose answer is written at once; the relay goroutine starts with acceptance. */
  function DoEvent(s: State, port: Uint16, frame: Frame, env: Env, selected: bool, written: Option<nat>)
    : Option<State>
  {
    if s.closing || env.shutdown || (s.c.status.StatusAccepted? && s.c.dstAddr.None?) then None
    else
      match Reaction(s.c, frame, env, port, (_: Ip) => selected)
      case NilTransport => None
      case Reacted(c, out, action, sent) =>
        var s1 := s.(c := c, closing := action.CloseAction?, head := s.head + out, local := s.local + out,
                     running := s.running || (c.status.StatusAccepted? && !s.c.status.StatusAccepted?));
        Some(if sent.Some? then Relay(s1, frame, sent.value, written) else s1)
  }

  function Do(s: State, port: Uint16, remote: seq<Byte>, a: Action): Option<State> {
    match a
    case Event(frame, env, selected, written) => DoEvent(s, port, frame, env, selected, written)
    case ServerUplink(written) =>
      if s.upDone || s.up == [] then None
      else Some(s.(up := s.up[1..], dest := s.dest + Cut(s.up[0], written), upDone := written.Some?))
    case ServerUplinkFails => Some(s.(upDone := true))
    case ServerRead(n) =>
      // The server reads from the dial on, whether or not the client goes on to accept.
      if !s.c.remoteConn || s.downDone || s.held.Some? || s.pos + n > |remote| then None
      else Some(s.(held := Some(remote[s.pos..s.pos + n]), pos := s.pos + n))
    case ServerForward(ok) =>
      if s.held.None? || s.downDone then None
      else if ok then Some(s.(held := None, down := s.down + [s.held.value]))
      else Some(s.(held := None, downDone := true))
    case ServerDownlinkFails => Some(s.(downDone := true))
    case ClientRelay(ok) =>
      if !s.running || s.down == [] then None
      else if s.down[0] == [] then Some(s.(down := s.down[1..]))
      else if ok then Some(s.(down := s.down[1..], queue := s.queue + [s.down[0]]))
      else Some(s.(down := s.down[1..], running := false))
    case ClientRelayFails => Some(s.(running := false))
    case DirectRead(n, ok) =>
      if !s.c.tcpConn || !s.running || n > 0x1_0000 || s.pos + n > |remote| then None
      else if ok then Some(s.(pos := s.pos + n, queue := s.queue + [remote[s.pos..s.pos + n]]))
      else Some(s.(pos := s.pos + n, running := false))
    case LoopWrite(n) =>
      if s.queue == [] || n > |s.queue[0]| then None
      else Some(s.(queue := Rest(s.queue, n), local := s.local + s.queue[0][..n]))
  }

  /** The queue after `n` octets of its first message. */
  function Rest(queue: seq<seq<Byte>>, n: nat): seq<seq<Byte>>
    requires queue != [] && n <= |queue[0]|
  {
    if n == |queue[0]| then queue[1..] else [queue[0][n..]] + queue[1..]
  }

  function Exec(s: State, port: Uint16, remote: seq<Byte>, acts: seq<Action>): Option<State> {
    if acts == [] then Some(s)
    else
      match Exec(s, port, remote, acts[..|acts| - 1])
      case Some(s') => Do(s', port, remote, acts[|acts| - 1])
      case None => None
  }

  // ----- What every stage keeps

  function Held(s: State): seq<Byte> {
    if s.held.Some? then s.held.value else []
  }

  predicate BothReplies(head: seq<Byte>, port: Uint16) {
    |head| == 12 && head[..2] == HELLO && IsReplyFrame(head[2..], head[3], port)
  }

  /** The handshake answers so far: nothing, the method reply, or both replies. */
  predicate HeadInv(c: ConnValue, head: seq<Byte>, port: Uint16, closing: bool) {
    match c.status
    case StatusOpened => head == [] && !c.remoteConn && !c.tcpConn
    case StatusMethodAccepted =>
      (head == HELLO || (closing && BothReplies(head, port))) && (!closing ==> !c.remoteConn && !c.tcpConn)
    case StatusAccepted => BothReplies(head, port) && c.remoteConn != c.tcpConn && c.dstAddr.Some?
  }

  /** Before acceptance nothing moves but what the server reads ahead. */
  predicate IdleInv(s: State) {
    !s.c.status.StatusAccepted? ==>
      && s.frames == [] && s.up == [] && s.dest == [] && !s.upBroken
      && !s.running && s.queue == [] && s.local == s.head
      && (!s.c.remoteConn ==> s.pos == 0 && s.held.None? && s.down == [])
  }

  predicate UpInv(s: State) {
    && s.dest <= Concat(s.frames)
    && (!s.upDone ==> s.dest + Concat(s.up) <= Concat(s.frames))
    && (!s.upDone && !s.upBroken ==> s.dest + Concat(s.up) == Concat(s.frames))
    && (s.c.tcpConn && s.c.status.StatusAccepted? ==> s.up == [] && (!s.upBroken ==> s.dest == Concat(s.frames)))
  }

  predicate DownInv(s: State, remote: seq<Byte>) {
    var sofar := s.local + Concat(s.queue);
    && s.pos <= |remote|
    && sofar <= s.head + remote[..s.pos]
    && (s.running ==> sofar + Concat(s.down) <= s.head + remote[..s.pos])
    && (s.running && !s.downDone ==> sofar + Concat(s.down) + Held(s) == s.head + remote[..s.pos])
    && (s.c.tcpConn && s.c.status.StatusAccepted? ==> s.down == [] && s.held.None?)
    && (s.c.tcpConn && s.running ==> sofar == s.head + remote[..s.pos])
  }

  predicate Inv(s: State, port: Uint16, remote: seq<Byte>) {
    HeadInv(s.c, s.head, port, s.closing) && IdleInv(s) && UpInv(s) && DownInv(s, remote)
  }

  lemma ConcatHead(ms: seq<seq<Byte>>)
    requires ms != []
    ensures Concat(ms) == ms[0] + Concat(ms[1..])
  {
  }

  lemma HelloThenReply(code: int, port: Uint16)
    ensures BothReplies(HELLO + ReplyFrame(code, port), port)
  {
    assert (HELLO + ReplyFrame(code, port))[2..] == ReplyFrame(code, port);
  }

  /** What a handshake event answers; an accepted connection answers nothing more and keeps its transport. */
  lemma ReactKeepsHead(c: ConnValue, head: seq<Byte>, port: Uint16, frame: Frame, env: Env, selected: bool)
    requires HeadInv(c, head, port, false) && !env.shutdown
    ensures match Reaction(c, frame, env, port, (_: Ip) => selected)
            case NilTransport => true
            case Reacted(c', out, action, sent) =>
              && HeadInv(c', head + out, port, action.CloseAction?)
              && (sent.Some? <==> c.status.StatusAccepted?)
              && (c.status.StatusAccepted? ==> c' == c && out == [] && sent == Some(CR.Chosen(c)))
  {
    if env.dial.Dialled? && env.dial.reply.Some? {
      HelloThenReply(env.dial.reply.value, port);
    }
    HelloThenReply(REP_SUCCEEDED, port);
    assert [] + HELLO == HELLO && HELLO + [] == HELLO && head + [] == head;
  }

  /** The handshake events: no octet of either stream moves. */
  lemma HandshakeKeeps(s: State, port: Uint16, remote: seq<Byte>, frame: Frame, env: Env, selected: bool,
                       written: Option<nat>)
    requires Inv(s, port, remote) && !s.c.status.StatusAccepted?
    requires DoEvent(s, port, frame, env, selected, written).Some?
    ensures Inv(DoEvent(s, port, frame, env, selected, written).value, port, remote)
  {
    ReactKeepsHead(s.c, s.head, port, frame, env, selected);
    var s' := DoEvent(s, port, frame, env, selected, written).value;
    assert s'.local == s'.head;
    NothingMoved(s', remote);
  }

  lemma NothingMoved(s: State, remote: seq<Byte>)
    requires s.frames == [] && s.up == [] && s.dest == [] && !s.upBroken
    requires s.pos == 0 && s.held.None? && s.down == [] && s.queue == [] && s.local == s.head
    ensures UpInv(s) && DownInv(s, remote)
  {
    assert s.head + remote[..0] == s.head;
    assert s.local + Concat([]) == s.local && s.local + Concat([]) + Concat([]) == s.local;
    assert s.local + Concat([]) + Concat([]) + [] == s.local;
  }

  lemma ProxyKeepsUp(s: State, frame: Frame, written: Option<nat>)
    requires UpInv(s) && s.c.status.StatusAccepted? && s.c.remoteConn && !s.c.tcpConn
    ensures UpInv(Relay(s, frame, Proxy, written))
  {
    ConcatSnoc(s.frames, frame);
    ConcatSnoc(s.up, frame);
    assert s.dest + Concat(s.up + [frame]) == s.dest + Concat(s.up) + frame;
  }

  lemma DirectKeepsUp(s: State, frame: Frame, written: Option<nat>)
    requires UpInv(s) && s.c.status.StatusAccepted? && s.c.tcpConn
    ensures UpInv(Relay(s, frame, Direct, written))
  {
    ConcatSnoc(s.frames, frame);
    assert Cut(frame, written) <= frame;
    assert forall m: seq<Byte> :: m + Concat([]) == m;
  }

  /** An event of an accepted connection relays its frame and does nothing else. */
  lemma EventRelays(s: State, port: Uint16, frame: Frame, env: Env, selected: bool, written: Option<nat>)
    requires HeadInv(s.c, s.head, port, s.closing) && s.c.status.StatusAccepted?
    requires DoEvent(s, port, frame, env, selected, written).Some?
    ensures DoEvent(s, port, frame, env, selected, written) == Some(Relay(s, frame, CR.Chosen(s.c), written))
  {
    ReactKeepsHead(s.c, s.head, port, frame, env, selected);
    assert s.head + [] == s.head && s.local + [] == s.local;
    assert s.(c := s.c, closing := false, head := s.head, local := s.local, running := s.running) == s;
  }

  /** The way up has no part in the way down. */
  lemma DownFrame(s: State, s': State, port: Uint16, remote: seq<Byte>)
    requires HeadInv(s.c, s.head, port, s.closing) && DownInv(s, remote)
    requires s' == s.(frames := s'.frames, up := s'.up, dest := s'.dest, upBroken := s'.upBroken)
    ensures HeadInv(s'.c, s'.head, port, s'.closing) && DownInv(s', remote)
  {
    assert s'.c == s.c && s'.head == s.head && s'.local == s.local && s'.queue == s.queue && s'.down == s.down;
    assert s'.held == s.held && s'.pos == s.pos && s'.running == s.running && s'.downDone == s.downDone;
  }

  lemma RelayFrame(s: State, frame: Frame, transport: Transport, written: Option<nat>)
    ensures var s' := Relay(s, frame, transport, written);
            s' == s.(frames := s'.frames, up := s'.up, dest := s'.dest, upBroken := s'.upBroken)
  {
  }

  lemma RelayKeeps(s: State, port: Uint16, remote: seq<Byte>, frame: Frame, written: Option<nat>)
    requires Inv(s, port, remote) && s.c.status.StatusAccepted?
    ensures Inv(Relay(s, frame, CR.Chosen(s.c), written), port, remote)
  {
    var s' := Relay(s, frame, CR.Chosen(s.c), written);
    RelayFrame(s, frame, CR.Chosen(s.c), written);
    DownFrame(s, s', port, remote);
    if s.c.remoteConn {
      ProxyKeepsUp(s, frame, written);
    } else {
      DirectKeepsUp(s, frame, written);
    }
  }

  lemma UplinkKeeps(s: State, port: Uint16, remote: seq<Byte>, written: Option<nat>)
    requires Inv(s, port, remote) && Do(s, port, remote, ServerUplink(written)).Some?
    ensures Inv(Do(s, port, remote, ServerUplink(written)).value, port, remote)
  {
    ConcatHead(s.up);
    var s' := Do(s, port, remote, ServerUplink(written)).value;
    assert s.dest + Concat(s.up) == s.dest + s.up[0] + Concat(s.up[1..]);
    assert Cut(s.up[0], written) <= s.up[0];
  }

  /** One chunk further in the stream. */
  lemma ReadsOn(head: seq<Byte>, remote: seq<Byte>, pos: nat, n: nat)
    requires pos + n <= |remote|
    ensures head + remote[..pos + n] == (head + remote[..pos]) + remote[pos..pos + n]
  {
    assert remote[..pos + n] == remote[..pos] + remote[pos..pos + n];
  }

  /** One message more in the queue. */
  lemma Queued(local: seq<Byte>, queue: seq<seq<Byte>>, m: seq<Byte>)
    ensures local + Concat(queue + [m]) == (local + Concat(queue)) + m
  {
    ConcatSnoc(queue, m);
  }

  lemma StaysPrefix(a: seq<Byte>, b: seq<Byte>, c: seq<Byte>)
    requires a <= b
    ensures a <= b + c
  {
  }

  lemma ServerReadKeeps(s: State, port: Uint16, remote: seq<Byte>, n: nat)
    requires Inv(s, port, remote) && Do(s, port, remote, ServerRead(n)).Some?
    ensures Inv(Do(s, port, remote, ServerRead(n)).value, port, remote)
  {
    var sofar, read, chunk := s.local + Concat(s.queue), s.head + remote[..s.pos], remote[s.pos..s.pos + n];
    ReadsOn(s.head, remote, s.pos, n);
    StaysPrefix(sofar, read, chunk);
    if s.running {
      StaysPrefix(sofar + Concat(s.down), read, chunk);
      assert sofar + Concat(s.down) + Held(s) == sofar + Concat(s.down);
    }
    assert s.c.status.StatusAccepted? ==> !s.c.tcpConn;
  }

  lemma ServerForwardKeeps(s: State, port: Uint16, remote: seq<Byte>, ok: bool)
    requires Inv(s, port, remote) && Do(s, port, remote, ServerForward(ok)).Some?
    ensures Inv(Do(s, port, remote, ServerForward(ok)).value, port, remote)
  {
    ConcatSnoc(s.down, s.held.value);
    var sofar := s.local + Concat(s.queue);
    assert sofar + Concat(s.down + [s.held.value]) == sofar + Concat(s.down) + s.held.value;
  }

  lemma ClientRelayKeeps(s: State, port: Uint16, remote: seq<Byte>, ok: bool)
    requires Inv(s, port, remote) && Do(s, port, remote, ClientRelay(ok)).Some?
    ensures Inv(Do(s, port, remote, ClientRelay(ok)).value, port, remote)
  {
    ConcatHead(s.down);
    var sofar, m, rest := s.local + Concat(s.queue), s.down[0], Concat(s.down[1..]);
    Queued(s.local, s.queue, m);
    assert sofar + Concat(s.down) == (sofar + m) + rest;
    assert m == [] ==> sofar + m == sofar;
  }

  lemma DirectReadKeeps(s: State, port: Uint16, remote: seq<Byte>, n: nat, ok: bool)
    requires Inv(s, port, remote) && Do(s, port, remote, DirectRead(n, ok)).Some?
    ensures Inv(Do(s, port, remote, DirectRead(n, ok)).value, port, remote)
  {
    ReadsOn(s.head, remote, s.pos, n);
    var s' := Do(s, port, remote, DirectRead(n, ok)).value;
    var sofar, chunk := s.local + Concat(s.queue), remote[s.pos..s.pos + n];
    Queued(s.local, s.queue, chunk);
    assert sofar == s.head + remote[..s.pos];
    assert ok ==> s'.local + Concat(s'.queue) == s.head + remote[..s'.pos];
    assert forall m: seq<Byte> :: m + Concat([]) == m && m + Concat([]) + [] == m;
  }

  lemma LoopWriteKeeps(s: State, port: Uint16, remote: seq<Byte>, n: nat)
    requires Inv(s, port, remote) && Do(s, port, remote, LoopWrite(n)).Some?
    ensures Inv(Do(s, port, remote, LoopWrite(n)).value, port, remote)
  {
    RestFollows(s.queue, n);
    assert s.local + Concat(s.queue) == (s.local + s.queue[0][..n]) + Concat(Rest(s.queue, n));
  }

  lemma RestFollows(queue: seq<seq<Byte>>, n: nat)
    requires queue != [] && n <= |queue[0]|
    ensures Concat(queue) == queue[0][..n] + Concat(Rest(queue, n))
  {
    ConcatHead(queue);
    assert queue[0] == queue[0][..n] + queue[0][n..];
    if n < |queue[0]| {
      ConcatHead(Rest(queue, n));
      assert Rest(queue, n)[1..] == queue[1..];
    }
  }

  lemma StepKeeps(s: State, port: Uint16, remote: seq<Byte>, a: Action)
    requires Inv(s, port, remote) && Do(s, port, remote, a).Some?
    ensures Inv(Do(s, port, remote, a).value, port, remote)
  {
    match a
    case Event(frame, env, selected, written) =>
      if s.c.status.StatusAccepted? {
        EventRelays(s, port, frame, env, selected, written);
        RelayKeeps(s, port, remote, frame, written);
      } else {
        HandshakeKeeps(s, port, remote, frame, env, selected, written);
      }
    case ServerUplink(written) => UplinkKeeps(s, port, remote, written);
    case ServerRead(n) => ServerReadKeeps(s, port, remote, n);
    case ServerForward(ok) => ServerForwardKeeps(s, port, remote, ok);
    case ClientRelay(ok) => ClientRelayKeeps(s, port, remote, ok);
    case DirectRead(n, ok) => DirectReadKeeps(s, port, remote, n, ok);
    case LoopWrite(n) => LoopWriteKeeps(s, port, remote, n);
    case ServerUplinkFails =>
    case ServerDownlinkFails =>
    case ClientRelayFails =>
  }

  lemma {:induction false} RunKeeps(key: nat, port: Uint16, remote: seq<Byte>, acts: seq<Action>)
    requires Exec(Init(key), port, remote, acts).Some?
    ensures Inv(Exec(Init(key), port, remote, acts).value, port, remote)
    decreases |acts|
  {
    if acts == [] {
      assert remote[..0] == [];
    } else {
      var acts' := acts[..|acts| - 1];
      RunKeeps(key, port, remote, acts');
      StepKeeps(Exec(Init(key), port, remote, acts').value, port, remote, acts[|acts| - 1]);
    }
  }

  /**
   The two streams, in every run, whatever the chunk sizes, the interleaving and the failures: the destination has
   received a prefix of the frames of the accepted connection, in order; the local application has received a prefix
   of the method reply, then the reply, then the destination's stream.
   */
  lemma StreamsInOrder(key: nat, port: Uint16, remote: seq<Byte>, acts: seq<Action>, s: State)
    requires Exec(Init(key), port, remote, acts) == Some(s)
    ensures s.dest <= Concat(s.frames)
    ensures s.local <= s.head + remote
    ensures s.c.status.StatusAccepted? ==>
              |s.head| == 2 + 10 && s.head[..2] == HELLO && IsReplyFrame(s.head[2..], s.head[3], port)
    ensures !s.c.status.StatusAccepted? ==> s.local == s.head && s.dest == []
  {
    RunKeeps(key, port, remote, acts);
    var sofar := s.local + Concat(s.queue);
    assert s.local <= sofar;
    assert s.head + remote[..s.pos] <= s.head + remote;
  }

  lemma Drained(s: State, port: Uint16, remote: seq<Byte>)
    requires Inv(s, port, remote)
    ensures s.pos <= |remote|
    ensures !s.upBroken && !s.upDone && s.up == [] ==> s.dest == Concat(s.frames)
    ensures s.running && !s.downDone && s.down == [] && s.queue == [] && s.held.None? ==>
              s.local == s.head + remote[..s.pos]
  {
    assert s.dest + Concat([]) == s.dest;
    assert s.local + Concat([]) + Concat([]) + [] == s.local;
  }

  /** Nothing is lost but by failure: when no stage has failed and all queues are empty, everything has arrived. */
  lemma DrainedIsComplete(key: nat, port: Uint16, remote: seq<Byte>, acts: seq<Action>, s: State)
    requires Exec(Init(key), port, remote, acts) == Some(s) && s.c.status.StatusAccepted?
    ensures s.pos <= |remote|
    ensures !s.upBroken && !s.upDone && s.up == [] ==> s.dest == Concat(s.frames)
    ensures s.running && !s.downDone && s.down == [] && s.queue == [] && s.held.None? ==>
              s.local == s.head + remote[..s.pos]
  {
    RunKeeps(key, port, remote, acts);
    Drained(s, port, remote);
  }

  // ----- Chunks

  /**
   Chunks come in any size: the server reads as much of what is left as it likes whenever it holds nothing, the client
   up to one buffer while its goroutine runs, and the event loop hands over as much of the oldest message as it likes.
   What is read is what comes next in the stream, and what is handed over comes off the queue.
   */
  lemma AnyChunk(s: State, port: Uint16, remote: seq<Byte>, n: nat, ok: bool)
    ensures Do(s, port, remote, ServerRead(n)).Some? <==>
              s.c.remoteConn && !s.downDone && s.held.None? && s.pos + n <= |remote|
    ensures var o := Do(s, port, remote, ServerRead(n));
            o.Some? ==> o.value.held == Some(remote[s.pos..s.pos + n]) && o.value.pos == s.pos + n
    ensures Do(s, port, remote, DirectRead(n, ok)).Some? <==>
              s.c.tcpConn && s.running && n <= 65536 && s.pos + n <= |remote|
    ensures var o := Do(s, port, remote, DirectRead(n, true));
            o.Some? ==> o.value.queue == s.queue + [remote[s.pos..s.pos + n]] && o.value.pos == s.pos + n
    ensures Do(s, port, remote, LoopWrite(n)).Some? <==> s.queue != [] && n <= |s.queue[0]|
    ensures var o := Do(s, port, remote, LoopWrite(n));
            o.Some? ==> |o.value.local| == |s.local| + n
                        && o.value.local + Concat(o.value.queue) == s.local + Concat(s.queue)
  {
    if s.queue != [] && n <= |s.queue[0]| {
      RestFollows(s.queue, n);
      assert (s.local + s.queue[0][..n]) + Concat(Rest(s.queue, n)) == s.local + Concat(s.queue);
    }
  }

  // ----- Failure

  /** The first `n` octets of a message, or all if it has no more. */
  function Octets(m: seq<Byte>, n: nat): seq<Byte> {
    m[..if n < |m| then n else |m|]
  }

  /**
   What becomes of a frame of an accepted connection: after a failed write, nothing; over the server, a message, unless
   the write fails; directly, its octets, or those written before the failure. A failed write is remembered, and nothing
   else of the connection changes.
   */
  lemma FrameDelivers(s: State, port: Uint16, frame: Frame, env: Env, selected: bool, written: Option<nat>)
    requires HeadInv(s.c, s.head, port, s.closing) && s.c.status.StatusAccepted?
    requires DoEvent(s, port, frame, env, selected, written).Some?
    ensures var s' := DoEvent(s, port, frame, env, selected, written).value;
            && selected == s.c.remoteConn
            && s'.frames == s.frames + [frame] && s'.c == s.c && !s'.closing && s'.local == s.local
            && (s.upBroken ==> s'.upBroken && s'.up == s.up && s'.dest == s.dest)
            && (!s.upBroken ==> (s'.upBroken <==> written.Some?))
            && (!s.upBroken && selected ==>
                  s'.dest == s.dest && s'.up == (if written.None? then s.up + [frame] else s.up))
            && (!s.upBroken && !selected ==>
                  s'.up == s.up
                  && s'.dest == s.dest + (if written.None? then frame else Octets(frame, written.value)))
  {
    EventRelays(s, port, frame, env, selected, written);
    ReactKeepsHead(s.c, s.head, port, frame, env, selected);
  }

  /** A failure passes nothing on but the octets written before it, and ends its stage. */
  lemma FailureStops(s: State, port: Uint16, remote: seq<Byte>, a: Action)
    requires !FailureFree(a) && !a.Event? && Do(s, port, remote, a).Some?
    ensures var s' := Do(s, port, remote, a).value;
            && s'.queue == s.queue && s'.local == s.local
            && (a.ServerUplink? ==> s'.upDone && s'.dest == s.dest + Octets(s.up[0], a.written.value))
            && (!a.ServerUplink? ==> s'.dest == s.dest)
            && (a.ServerUplinkFails? ==> s'.upDone)
            && (a.ServerForward? || a.ServerDownlinkFails? ==> s'.downDone && s'.down == s.down)
            && (a.DirectRead? || a.ClientRelayFails? ==> !s'.running)
            && (a.ClientRelay? && s.down[0] != [] ==> !s'.running)
  {
  }

  /** Stages that have stopped, among those that can deliver. */
  predicate StopsOnly(s: State, s': State) {
    && s'.c == s.c && s'.head == s.head
    && (s.upDone ==> s'.upDone) && (s.upBroken ==> s'.upBroken) && (s.downDone ==> s'.downDone)
    && (s.c.status.StatusAccepted? && !s.running ==> !s'.running)
    && (s.upDone && s.c.remoteConn ==> s'.dest == s.dest)
    && (s.upBroken && !s.c.remoteConn ==> s'.dest == s.dest)
    && (s.c.status.StatusAccepted? && !s.running ==>
          s'.local + Concat(s'.queue) == s.local + Concat(s.queue))
  }

  lemma StoppedRelay(s: State, frame: Frame, written: Option<nat>)
    requires s.c.status.StatusAccepted?
    ensures StopsOnly(s, Relay(s, frame, CR.Chosen(s.c), written))
  {
    RelayFrame(s, frame, CR.Chosen(s.c), written);
  }

  lemma StoppedLoopWrite(s: State, port: Uint16, remote: seq<Byte>, n: nat)
    requires Do(s, port, remote, LoopWrite(n)).Some?
    ensures StopsOnly(s, Do(s, port, remote, LoopWrite(n)).value)
  {
    RestFollows(s.queue, n);
    assert (s.local + s.queue[0][..n]) + Concat(Rest(s.queue, n)) == s.local + Concat(s.queue);
  }

  lemma StoppedUplink(s: State, port: Uint16, remote: seq<Byte>, a: Action)
    requires (a.ServerUplink? || a.ServerUplinkFails?) && Do(s, port, remote, a).Some?
    requires !s.c.remoteConn ==> s.up == []
    ensures StopsOnly(s, Do(s, port, remote, a).value)
  {
  }

  lemma StoppedDownlink(s: State, port: Uint16, remote: seq<Byte>, a: Action)
    requires a.ServerRead? || a.ServerForward? || a.ServerDownlinkFails?
    requires Do(s, port, remote, a).Some?
    ensures StopsOnly(s, Do(s, port, remote, a).value)
  {
  }

  lemma StoppedGoroutine(s: State, port: Uint16, remote: seq<Byte>, a: Action)
    requires a.ClientRelay? || a.ClientRelayFails? || a.DirectRead?
    requires Do(s, port, remote, a).Some?
    ensures StopsOnly(s, Do(s, port, remote, a).value)
  {
  }

  lemma StoppedStep(s: State, port: Uint16, remote: seq<Byte>, a: Action)
    requires Inv(s, port, remote) && s.c.status.StatusAccepted? && Do(s, port, remote, a).Some?
    ensures StopsOnly(s, Do(s, port, remote, a).value)
  {
    match a
    case Event(frame, env, selected, written) =>
      EventRelays(s, port, frame, env, selected, written);
      StoppedRelay(s, frame, written);
    case LoopWrite(n) =>
      StoppedLoopWrite(s, port, remote, n);
    case _ =>
      if a.ServerUplink? || a.ServerUplinkFails? {
        StoppedUplink(s, port, remote, a);
      } else if a.ServerRead? || a.ServerForward? || a.ServerDownlinkFails? {
        StoppedDownlink(s, port, remote, a);
      } else {
        StoppedGoroutine(s, port, remote, a);
      }
  }

  /**
   A stage that has stopped has stopped for good: in every run from an accepted connection on, the destination gets
   nothing more once its uplink has ended, and the local application nothing more than is queued once the client's relay
   goroutine has.
   */
  lemma {:induction false} StoppedForGood(s: State, port: Uint16, remote: seq<Byte>, acts: seq<Action>)
    requires Inv(s, port, remote) && s.c.status.StatusAccepted? && Exec(s, port, remote, acts).Some?
    ensures Inv(Exec(s, port, remote, acts).value, port, remote)
    ensures StopsOnly(s, Exec(s, port, remote, acts).value)
    decreases |acts|
  {
    if acts != [] {
      var acts' := acts[..|acts| - 1];
      StoppedForGood(s, port, remote, acts');
      StepKeeps(Exec(s, port, remote, acts').value, port, remote, acts[|acts| - 1]);
      StoppedStep(Exec(s, port, remote, acts').value, port, remote, acts[|acts| - 1]);
    }
  }

  // ----- Progress

  /** The outcome of the step is no failure of a stage. */
  predicate FailureFree(a: Action) {
    match a
    case Event(_, _, _, written) => written.None?
    case ServerUplink(written) => written.None?
    case ServerForward(ok) => ok
    case ClientRelay(ok) => ok
    case DirectRead(_, ok) => ok
    case ServerRead(_) => true
    case LoopWrite(_) => true
    case _ => false
  }

  /** No stage has stopped, and the client's relay goroutine runs from acceptance on. */
  predicate Healthy(s: State) {
    !s.upDone && !s.upBroken && !s.downDone && (s.c.status.StatusAccepted? ==> s.running)
  }

  lemma HealthyStep(s: State, port: Uint16, remote: seq<Byte>, a: Action)
    requires Healthy(s) && FailureFree(a) && Do(s, port, remote, a).Some?
    ensures Healthy(Do(s, port, remote, a).value)
  {
  }

  /** Nothing stops but by failure: in every run without a failure every stage is still at work. */
  lemma {:induction false} NothingStops(key: nat, port: Uint16, remote: seq<Byte>, acts: seq<Action>)
    requires Exec(Init(key), port, remote, acts).Some? && forall a | a in acts :: FailureFree(a)
    ensures Healthy(Exec(Init(key), port, remote, acts).value)
    decreases |acts|
  {
    if acts != [] {
      var acts' := acts[..|acts| - 1];
      NothingStops(key, port, remote, acts');
      HealthyStep(Exec(Init(key), port, remote, acts').value, port, remote, acts[|acts| - 1]);
    }
  }

  /** Steps still to be made until everything has arrived, at most. */
  function Debt(s: State, remote: seq<Byte>): nat
    requires s.pos <= |remote|
  {
    |s.up| + 4 * (|remote| - s.pos) + (if s.held.Some? then 3 else 0) + 2 * |s.down| + |s.queue|
  }

  /** The next step towards that: whatever is furthest on its way moves. */
  function NextMove(s: State, remote: seq<Byte>): Action
    requires s.pos <= |remote|
  {
    if s.up != [] then ServerUplink(None)
    else if s.queue != [] then LoopWrite(|s.queue[0]|)
    else if s.down != [] then ClientRelay(true)
    else if s.held.Some? then ServerForward(true)
    else if s.c.remoteConn then ServerRead(|remote| - s.pos)
    else DirectRead(if |remote| - s.pos > 0x1_0000 then 0x1_0000 else |remote| - s.pos, true)
  }

  /** It can be made, and less remains to be done. */
  lemma Moves(s: State, port: Uint16, remote: seq<Byte>) returns (s': State)
    requires Inv(s, port, remote) && Healthy(s) && s.c.status.StatusAccepted? && Debt(s, remote) > 0
    ensures Do(s, port, remote, NextMove(s, remote)) == Some(s') && FailureFree(NextMove(s, remote))
    ensures !NextMove(s, remote).Event?
    ensures s'.c == s.c && s'.frames == s.frames && s'.head == s.head
    ensures s'.pos <= |remote| && Debt(s', remote) < Debt(s, remote)
  {
    s' := Do(s, port, remote, NextMove(s, remote)).value;
  }

  lemma OneMore(start: State, port: Uint16, remote: seq<Byte>, before: seq<Action>, s: State, a: Action)
    requires Exec(start, port, remote, before) == Some(s)
    ensures Exec(start, port, remote, before + [a]) == Do(s, port, remote, a)
  {
    assert (before + [a])[..|before|] == before;
  }

  /** The schedule contains no failure and no event. */
  predicate OnlyMoves(acts: seq<Action>) {
    forall a | a in acts :: FailureFree(a) && !a.Event?
  }

  lemma {:induction false} Drains(start: State, port: Uint16, remote: seq<Byte>, before: seq<Action>, s: State)
    returns (acts: seq<Action>, s': State)
    requires Exec(start, port, remote, before) == Some(s) && OnlyMoves(before)
    requires Inv(s, port, remote) && Healthy(s) && s.c.status.StatusAccepted?
    ensures Exec(start, port, remote, acts) == Some(s') && OnlyMoves(acts)
    ensures s'.c == s.c && s'.frames == s.frames && s'.head == s.head
    ensures s'.dest == Concat(s'.frames) && s'.local == s'.head + remote
    decreases Debt(s, remote)
  {
    if Debt(s, remote) == 0 {
      acts, s' := before, s;
      Drained(s, port, remote);
      assert remote[..s.pos] == remote;
    } else {
      var a := NextMove(s, remote);
      var mid := Moves(s, port, remote);
      StepKeeps(s, port, remote, a);
      HealthyStep(s, port, remote, a);
      OneMore(start, port, remote, before, s, a);
      acts, s' := Drains(start, port, remote, before + [a], mid);
    }
  }

  /**
   Everything can arrive: from every point of every run without a failure, once the connection is accepted, some
   schedule without a failure and without further frames brings the destination all the frames, and the local
   application both replies and the whole of the destination's stream, over either transport.
   */
  lemma EverythingCanArrive(key: nat, port: Uint16, remote: seq<Byte>, acts: seq<Action>, s: State)
    returns (more: seq<Action>, s': State)
    requires Exec(Init(key), port, remote, acts) == Some(s) && s.c.status.StatusAccepted?
    requires forall a | a in acts :: FailureFree(a)
    ensures Exec(s, port, remote, more) == Some(s') && OnlyMoves(more)
    ensures s'.frames == s.frames && s'.dest == Concat(s.frames)
    ensures s'.head == s.head && s'.local == s.head + remote
  {
    RunKeeps(key, port, remote, acts);
    NothingStops(key, port, remote, acts);
    more, s' := Drains(s, port, remote, [], s);
  }
}
