/**
 Whole runs of the client (pkg/core/client.go): any number of connections open, send frames and close in any
 order that the event library allows, while their selections interleave, lock operation by lock operation, with
 each other, with cache evictions and with the updater inside the router machine of `RouterProtocol`.
 */
module ClientRuns {
  import opened Bytes
  import opened Reserved
  import opened Socks5
  import opened Client
  import R = RouterProtocol

  /** A remote address, which also names the thread that serves the connection. */
  type Key = nat
  type Frame = seq<Byte>

  datatype Sent = Sent(transport: Transport, frame: Frame)

  /**
   History of one connection: frames received, what the outside answers during the second of them and what the router
   selects in it, octets answered frame by frame, frames relayed.
   */
  datatype Log = Log(
    frames: seq<Frame>,
    asked: Option<Env>,
    selected: Option<bool>,
    out: seq<seq<Byte>>,
    sent: seq<Sent>
  )

  /** A frame whose selection is under way. */
  datatype Busy = Busy(frame: Frame, env: Env)

  /**
   `port` is the client's own; `live` are the connections the event library holds open, `closing` those it has been told
   to close.
   */
  datatype State = State(
    port: Uint16,
    live: set<Key>,
    table: map<Key, ConnValue>,
    busy: map<Key, Busy>,
    closing: set<Key>,
    logs: map<Key, Log>,
    router: R.State
  )

  function Init(router: R.State, port: Uint16): State {
    State(port, {}, map[], map[], {}, map[], router)
  }

  datatype Action =
    | Open(k: Key)
    | Receive(k: Key, frame: Frame, env: Env)   // an event begins
    | Finish(k: Key)                            // its selection has an answer, and it ends
    | Close(k: Key)
    | Internal(a: R.Action)                     // one step of a thread or of the updater inside the router

  datatype Outcome = Blocked | Panic | Next(s: State)

  function AddFrame(l: Log, frame: Frame, env: Env): Log {
    l.(frames := l.frames + [frame], asked := if |l.frames| == 1 then Some(env) else l.asked)
  }

  /** Octets that an event writes back; an event without any writes nothing. */
  function AddOut(l: Log, out: seq<Byte>): Log {
    if out == [] then l else l.(out := l.out + [out])
  }

  /** The end of an event: its selection counts if it is the second, and its frame may have been relayed. */
  function EndEvent(l: Log, second: bool, selected: bool, out: seq<Byte>, frame: Frame, sent: Option<Transport>): Log {
    var l' := AddOut(if second then l.(selected := Some(selected)) else l, out);
    if sent.Some? then l'.(sent := l'.sent + [Sent(sent.value, frame)]) else l'
  }

  function DoOpen(s: State, k: Key): Outcome {
    if k in s.live then Blocked
    else Next(s.(live := s.live + {k}, table := s.table[k := NewConnValue(k)],
                 logs := s.logs[k := Log([], None, None, [], [])], closing := s.closing - {k}))
  }

  function DoReceive(w: R.World, s: State, k: Key, frame: Frame, env: Env): Outcome {
    if k !in s.live || k in s.busy || k in s.closing || env.shutdown then Blocked
    else if k !in s.table || k !in s.logs then Panic
    else
      var c, l := s.table[k], AddFrame(s.logs[k], frame, env);
      if c.status.StatusAccepted? && c.dstAddr.None? then Panic
      else
        match Before(c, frame, env)
        case Finished(c', out, action) =>
          Next(s.(table := s.table[k := c'], logs := s.logs[k := AddOut(l, out)],
                  closing := if action.CloseAction? then s.closing + {k} else s.closing))
        case Selecting(c', ip) =>
          match R.Do(w, s.router, R.Call(k, ip))
          case Next(r) =>
            Next(s.(table := s.table[k := c'], logs := s.logs[k := l], busy := s.busy[k := Busy(frame, env)],
                    router := r))
          case _ => Blocked
  }

  function DoFinish(w: R.World, s: State, k: Key): Outcome {
    if k !in s.busy || k !in s.table || k !in s.logs || !R.At(s.router, k).Selected? then Blocked
    else
      match R.Do(w, s.router, R.Leave(k))
      case Next(r) =>
        (var c, r', busy := s.table[k], R.At(s.router, k).r, s.busy[k];
         match After(c, r', busy.env, s.port)
         case NilTransport => Panic
         case Reacted(c', out, action, sent) =>
           var l := EndEvent(s.logs[k], c.status.StatusMethodAccepted?, r', out, busy.frame, sent);
           Next(s.(table := s.table[k := c'], logs := s.logs[k := l], busy := s.busy - {k}, router := r,
                   closing := if action.CloseAction? then s.closing + {k} else s.closing)))
      case _ => Blocked
  }

  function DoClose(w: R.World, s: State, k: Key): Outcome {
    if k !in s.live || k in s.busy then Blocked
    else if k !in s.table then Panic
    else
      var s' := s.(live := s.live - {k}, table := s.table - {k}, logs := s.logs - {k}, closing := s.closing - {k});
      match s.table[k].dstAddr
      case None => Next(s')
      case Some(dst) =>
        match R.Do(w, s.router, R.Evict(dst.ip))
        case Next(r) => Next(s'.(router := r))
        case _ => Blocked
  }

  function Do(w: R.World, s: State, a: Action): Outcome {
    match a
    case Open(k) => DoOpen(s, k)
    case Receive(k, frame, env) => DoReceive(w, s, k, frame, env)
    case Finish(k) => DoFinish(w, s, k)
    case Close(k) => DoClose(w, s, k)
    case Internal(a) =>
      if a.Step? || R.ByUpdater(a) then
        match R.Do(w, s.router, a)
        case Next(r) => Next(s.(router := r))
        case Fault => Panic
        case Blocked => Blocked
      else Blocked
  }

  function Exec(w: R.World, s: State, acts: seq<Action>): Outcome {
    if acts == [] then Next(s)
    else
      match Exec(w, s, acts[..|acts| - 1])
      case Next(s') => Do(w, s', acts[|acts| - 1])
      case o => o
  }

  // ----- What one connection keeps

  /** The second frame was a request, and the connection carries its command and its destination. */
  predicate Requested(c: ConnValue, l: Log) {
    && |l.frames| >= 2 && l.asked.Some? && Known(l.frames[1], l.asked.value.resolved)
    && c.cmd == ParseRequest(l.frames[1]).value.cmd
    && c.dstAddr == Some(Destination(l.frames[1], l.asked.value.resolved))
  }

  function Chosen(c: ConnValue): Transport {
    if c.remoteConn then Proxy else Direct
  }

  predicate OpenedOk(c: ConnValue, l: Log, closing: bool) {
    && Transports(c) == {} && c.dstAddr.None? && l.out == [] && l.sent == [] && l.asked.None? && l.selected.None?
    && (if closing then |l.frames| == 1 && !GoodHello(l.frames[0]) else l.frames == [])
  }

  /**
   What the second frame has come to once the router has selected: a transport is open exactly if its dial has made a
   connection, and the method reply is followed, if the dial had something to answer, by the reply with its code.
   */
  predicate DialledOk(c: ConnValue, l: Log, port: Uint16) {
    && Requested(c, l) && l.selected.Some? && GoodHello(l.frames[0])
    && var (env, selected) := (l.asked.value, l.selected.value);
       && (c.remoteConn <==> selected && Connects(env, selected))
       && (c.tcpConn <==> !selected && Connects(env, selected))
       && |l.out| == (if Answers(env, selected) then 2 else 1) && l.out[0] == HELLO
       && (Answers(env, selected) ==> IsReplyFrame(l.out[1], AnswerCode(env, selected), port))
  }

  /** The dial had something to answer, and the relay goroutine was submitted. */
  predicate Succeeded(l: Log) {
    && l.asked.Some? && l.selected.Some?
    && Answers(l.asked.value, l.selected.value) && l.asked.value.submitOk
  }

  predicate MethodAcceptedOk(c: ConnValue, l: Log, port: Uint16, busy: bool, closing: bool) {
    && 1 <= |l.frames| <= 2 && GoodHello(l.frames[0]) && l.sent == []
    && (|l.frames| == 1 <==> !busy && !closing) && !(busy && closing)
    && (|l.frames| == 1 ==> c.dstAddr.None? && l.asked.None?)
    && (busy ==> Requested(c, l))
    && (closing && l.selected.None? ==> l.asked.Some? && !Known(l.frames[1], l.asked.value.resolved))
    && (l.selected.None? ==> Transports(c) == {} && l.out == [HELLO])
    && (l.selected.Some? ==> closing && DialledOk(c, l, port) && !Succeeded(l))
  }

  /** Relayed frames: all that came after the request, in order, on one transport. */
  predicate RelayedOk(c: ConnValue, l: Log, busy: bool)
    requires |l.frames| >= 2
  {
    && |l.sent| + 2 + (if busy then 1 else 0) == |l.frames|
    && forall i | 0 <= i < |l.sent| :: l.sent[i] == Sent(Chosen(c), l.frames[i + 2])
  }

  predicate AcceptedOk(c: ConnValue, l: Log, port: Uint16, busy: bool, closing: bool) {
    DialledOk(c, l, port) && Succeeded(l) && !closing && RelayedOk(c, l, busy)
  }

  predicate ConnOk(c: ConnValue, l: Log, port: Uint16, busy: bool, closing: bool) {
    match c.status
    case StatusOpened => !busy && OpenedOk(c, l, closing)
    case StatusMethodAccepted => MethodAcceptedOk(c, l, port, busy, closing)
    case StatusAccepted => AcceptedOk(c, l, port, busy, closing)
  }

  /** The first half of an event keeps what a connection keeps. */
  lemma BeforeKeeps(c: ConnValue, l: Log, frame: Frame, env: Env, port: Uint16)
    requires ConnOk(c, l, port, false, false)
    ensures c.status.StatusAccepted? ==> c.dstAddr.Some?
    ensures match Before(c, frame, env)
            case Finished(c', out, action) =>
              c'.key == c.key && !action.ShutdownAction?
              && ConnOk(c', AddOut(AddFrame(l, frame, env), out), port, false, action.CloseAction?)
            case Selecting(c', ip) =>
              c'.key == c.key && !c'.status.StatusOpened? && c'.dstAddr.Some? && ip == c'.dstAddr.value.ip
              && ConnOk(c', AddFrame(l, frame, env), port, true, false)
  {
    var l' := AddFrame(l, frame, env);
    assert l'.frames[|l.frames|] == frame;
    assert |l.frames| > 0 ==> l'.frames[0] == l.frames[0];
    assert |l.frames| > 1 ==> l'.frames[1] == l.frames[1];
  }

  /** A connection whose second frame has been dealt with, by the outcome of the dial. */
  lemma DialOutcomeKeeps(c: ConnValue, c': ConnValue, l: Log, out: seq<Byte>, selected: bool, env: Env, port: Uint16)
    requires MethodAcceptedOk(c, l, port, true, false) && l.selected.None? && l.asked == Some(env)
    requires c'.dstAddr == c.dstAddr && c'.cmd == c.cmd
    requires c'.remoteConn == (selected && Connects(env, selected))
    requires c'.tcpConn == (!selected && Connects(env, selected))
    requires out != [] <==> Answers(env, selected)
    requires out != [] ==> IsReplyFrame(out, AnswerCode(env, selected), port)
    ensures DialledOk(c', AddOut(l.(selected := Some(selected)), out), port)
  {
  }

  /** The end of the second event. */
  lemma DialKeeps(c: ConnValue, l: Log, frame: Frame, selected: bool, env: Env, port: Uint16)
    requires c.status.StatusMethodAccepted? && MethodAcceptedOk(c, l, port, true, false) && l.asked == Some(env)
    ensures After(c, selected, env, port).Reacted?
    ensures var h := After(c, selected, env, port);
            var l' := EndEvent(l, true, selected, h.out, frame, h.sent);
            && h.sent == None && h.c.key == c.key && h.c.dstAddr == c.dstAddr && h.c.cmd == c.cmd
            && DialledOk(h.c, l', port)
            && (h.c.status == if Succeeded(l') then StatusAccepted else StatusMethodAccepted)
            && (h.action == if Succeeded(l') then NoAction else CloseAction)
            && (h.c.remoteConn ==> selected) && (h.c.tcpConn ==> !selected)
  {
    AfterExact(c, env, selected, port);
    var h := After(c, selected, env, port);
    DialOutcomeKeeps(c, h.c, l, h.out, selected, env, port);
  }

  /** The second half of an event keeps it too, unless it writes to a transport that is not the one chosen. */
  lemma AfterKeeps(c: ConnValue, l: Log, frame: Frame, selected: bool, env: Env, port: Uint16)
    requires ConnOk(c, l, port, true, false) && l.frames[|l.frames| - 1] == frame
    requires c.status.StatusMethodAccepted? ==> l.asked == Some(env)
    ensures match After(c, selected, env, port)
            case NilTransport => c.status.StatusAccepted? && selected != c.remoteConn
            case Reacted(c', out, action, sent) =>
              var l' := EndEvent(l, c.status.StatusMethodAccepted?, selected, out, frame, sent);
              && c'.key == c.key && c'.dstAddr == c.dstAddr && c'.cmd == c.cmd && !action.ShutdownAction?
              && ConnOk(c', l', port, false, action.CloseAction?)
              && (c.status.StatusAccepted? ==> c' == c && selected == c.remoteConn)
              && (c'.status.StatusAccepted? && !c.status.StatusAccepted? ==> selected == c'.remoteConn)
  {
    if c.status.StatusMethodAccepted? {
      DialKeeps(c, l, frame, selected, env, port);
    }
  }

  // ----- What the whole client keeps

  predicate Has(s: State, k: Key) {
    k in s.table && k in s.logs
  }

  predicate ConnAt(s: State, k: Key)
    requires Has(s, k)
  {
    && s.table[k].key == k
    && ConnOk(s.table[k], s.logs[k], s.port, k in s.busy, k in s.closing)
    && (k in s.busy ==> s.logs[k].frames != [] && s.logs[k].frames[|s.logs[k].frames| - 1] == s.busy[k].frame)
    && (k in s.busy && s.table[k].status.StatusMethodAccepted? ==> s.logs[k].asked == Some(s.busy[k].env))
  }

  /** The table holds exactly the live connections, each under its own key. */
  ghost predicate TableInv(s: State) {
    && s.table.Keys == s.live && s.logs.Keys == s.live
    && s.busy.Keys <= s.live && s.closing <= s.live
    && (forall k :: k in s.live ==> ConnAt(s, k))
  }

  /** A connection's thread is inside the router exactly while its event is under way, with its destination. */
  predicate ThreadAt(s: State, k: Key) {
    var pc := R.At(s.router, k);
    && (k in s.busy <==> !pc.Outside?)
    && (k in s.busy ==> k in s.table && s.table[k].dstAddr.Some? && pc.ip == s.table[k].dstAddr.value.ip)
  }

  ghost predicate Inv(w: R.World, s: State) {
    TableInv(s) && (forall k: Key :: ThreadAt(s, k)) && R.Inv(w, s.router)
  }

  /** The two states differ, if at all, in connection `k`. */
  ghost predicate SameElsewhere(s: State, s': State, k: Key) {
    forall j | j != k :: SameAt(s, s', j)
  }

  predicate SameAt(s: State, s': State, j: Key) {
    && (j in s'.table <==> j in s.table) && (j in s.table ==> s'.table[j] == s.table[j])
    && (j in s'.logs <==> j in s.logs) && (j in s.logs ==> s'.logs[j] == s.logs[j])
    && (j in s'.busy <==> j in s.busy) && (j in s.busy ==> s'.busy[j] == s.busy[j])
    && (j in s'.closing <==> j in s.closing)
    && (j in s'.live <==> j in s.live)
    && R.At(s'.router, j) == R.At(s.router, j)
    && s'.port == s.port
  }

  /** What connection `k` alone must satisfy: live with all its entries, or gone with none. */
  predicate Settled(s: State, k: Key) {
    && (k in s.live <==> k in s.table) && (k in s.live <==> k in s.logs)
    && (k in s.busy || k in s.closing ==> k in s.live)
    && (k in s.live ==> ConnAt(s, k))
    && ThreadAt(s, k)
  }

  lemma InvAt(w: R.World, s: State, k: Key)
    requires Inv(w, s)
    ensures Settled(s, k)
  {
    assert ThreadAt(s, k);
  }

  lemma SettledStays(w: R.World, s: State, s': State, j: Key)
    requires Inv(w, s) && SameAt(s, s', j)
    ensures Settled(s', j)
  {
    InvAt(w, s, j);
  }

  lemma AllSettled(w: R.World, s: State)
    requires (forall j: Key :: Settled(s, j)) && R.Inv(w, s.router)
    ensures Inv(w, s)
  {
    forall j: Key ensures ThreadAt(s, j) {
      assert Settled(s, j);
    }
    forall j: Key
      ensures (j in s.live <==> j in s.table) && (j in s.live <==> j in s.logs)
      ensures (j in s.busy || j in s.closing ==> j in s.live) && (j in s.live ==> ConnAt(s, j))
    {
      assert Settled(s, j);
    }
  }

  /** A change to one connection keeps the invariant if that connection is settled afterwards. */
  lemma OneChanges(w: R.World, s: State, s': State, k: Key)
    requires Inv(w, s) && SameElsewhere(s, s', k) && Settled(s', k) && R.Inv(w, s'.router)
    ensures Inv(w, s')
  {
    forall j: Key ensures Settled(s', j) {
      if j != k {
        SettledStays(w, s, s', j);
      }
    }
    AllSettled(w, s');
  }

  /** The thread pcs after a step of one thread. */
  lemma RouterThreadPcs(w: R.World, r: R.State, t: R.Tid)
    requires R.DoStep(w, r, t).Next?
    ensures R.Do(w, r, R.Step(t)).Next? && R.Do(w, r, R.Step(t)).s.pcs == R.DoStep(w, r, t).s.pcs
  {
  }

  /** A step of a thread inside the router: its address and the other threads stay. */
  lemma RouterThreadStep(w: R.World, r: R.State, t: R.Tid)
    requires R.Inv(w, r) && R.Do(w, r, R.Step(t)).Next?
    ensures var r' := R.Do(w, r, R.Step(t)).s;
            && R.Inv(w, r')
            && (forall u: R.Tid | u != t :: R.At(r', u) == R.At(r, u))
            && !R.At(r', t).Outside? && !R.At(r, t).Outside? && R.At(r', t).ip == R.At(r, t).ip
  {
    R.StepKeeps(w, r, R.Step(t));
    RouterThreadPcs(w, r, t);
    R.AnswersGrow(w, r, t);
    R.StepKeepsAddress(w, r, t);
    var r1, r' := R.DoStep(w, r, t).s, R.Do(w, r, R.Step(t)).s;
    assert forall u: R.Tid :: R.At(r', u) == R.At(r1, u);
  }

  lemma RouterLeave(w: R.World, r: R.State, t: R.Tid)
    requires R.Inv(w, r) && R.At(r, t).Selected?
    ensures R.Do(w, r, R.Leave(t)).Next?
    ensures var r' := R.Do(w, r, R.Leave(t)).s;
            R.Inv(w, r') && R.At(r', t).Outside? && forall u: R.Tid | u != t :: R.At(r', u) == R.At(r, u)
  {
    R.StepKeeps(w, r, R.Leave(t));
  }

  lemma RouterUpdaterStep(w: R.World, r: R.State, a: R.Action)
    requires R.Inv(w, r) && R.Do(w, r, a).Next? && R.ByUpdater(a)
    ensures R.Inv(w, R.Do(w, r, a).s) && R.Do(w, r, a).s.pcs == r.pcs
  {
    R.StepKeeps(w, r, a);
  }

  lemma OpenKeeps(w: R.World, s: State, k: Key)
    requires Inv(w, s) && DoOpen(s, k).Next?
    ensures Inv(w, DoOpen(s, k).s)
  {
    InvAt(w, s, k);
    OneChanges(w, s, DoOpen(s, k).s, k);
  }

  lemma RouterCall(w: R.World, r: R.State, t: R.Tid, ip: Ip)
    requires R.Inv(w, r) && R.At(r, t).Outside?
    ensures R.Do(w, r, R.Call(t, ip)).Next?
    ensures var r' := R.Do(w, r, R.Call(t, ip)).s;
            R.Inv(w, r') && R.At(r', t) == R.Looking(ip) && forall u: R.Tid | u != t :: R.At(r', u) == R.At(r, u)
  {
    R.StepKeeps(w, r, R.Call(t, ip));
  }

  /** A connection that can take a frame. */
  predicate Ready(s: State, k: Key) {
    k in s.live && k !in s.busy && k !in s.closing && k in s.table && k in s.logs
    && (s.table[k].status.StatusAccepted? ==> s.table[k].dstAddr.Some?)
  }

  lemma FinishedSettles(w: R.World, s: State, k: Key, frame: Frame, env: Env)
    requires Settled(s, k) && Ready(s, k) && !env.shutdown && Before(s.table[k], frame, env).Finished?
    ensures DoReceive(w, s, k, frame, env).Next? && Settled(DoReceive(w, s, k, frame, env).s, k)
  {
    BeforeKeeps(s.table[k], s.logs[k], frame, env, s.port);
  }

  lemma SelectingSettles(w: R.World, s: State, k: Key, frame: Frame, env: Env)
    requires Settled(s, k) && R.Inv(w, s.router)
    requires Ready(s, k) && !env.shutdown && Before(s.table[k], frame, env).Selecting?
    ensures DoReceive(w, s, k, frame, env).Next? && Settled(DoReceive(w, s, k, frame, env).s, k)
  {
    BeforeKeeps(s.table[k], s.logs[k], frame, env, s.port);
    RouterCall(w, s.router, k, Before(s.table[k], frame, env).ip);
  }

  lemma FinishedElsewhere(w: R.World, s: State, k: Key, frame: Frame, env: Env)
    requires Settled(s, k) && Ready(s, k) && Before(s.table[k], frame, env).Finished?
    requires DoReceive(w, s, k, frame, env).Next?
    ensures var s' := DoReceive(w, s, k, frame, env).s;
            SameElsewhere(s, s', k) && s'.router == s.router
  {
  }

  lemma SelectingElsewhere(w: R.World, s: State, k: Key, frame: Frame, env: Env)
    requires Settled(s, k) && Ready(s, k) && Before(s.table[k], frame, env).Selecting?
    requires R.Inv(w, s.router) && DoReceive(w, s, k, frame, env).Next?
    ensures var s' := DoReceive(w, s, k, frame, env).s;
            SameElsewhere(s, s', k) && R.Inv(w, s'.router)
  {
    RouterCall(w, s.router, k, Before(s.table[k], frame, env).ip);
  }

  lemma ReceiveKeeps(w: R.World, s: State, k: Key, frame: Frame, env: Env)
    requires Inv(w, s)
    ensures !DoReceive(w, s, k, frame, env).Panic?
    ensures DoReceive(w, s, k, frame, env).Next? ==> Inv(w, DoReceive(w, s, k, frame, env).s)
  {
    if k in s.live && k !in s.busy && k !in s.closing && !env.shutdown {
      InvAt(w, s, k);
      BeforeKeeps(s.table[k], s.logs[k], frame, env, s.port);
      if Before(s.table[k], frame, env).Finished? {
        FinishedSettles(w, s, k, frame, env);
        FinishedElsewhere(w, s, k, frame, env);
      } else {
        SelectingSettles(w, s, k, frame, env);
        SelectingElsewhere(w, s, k, frame, env);
      }
      OneChanges(w, s, DoReceive(w, s, k, frame, env).s, k);
    }
  }

  lemma FinishSettles(w: R.World, s: State, k: Key)
    requires Settled(s, k) && R.Inv(w, s.router) && DoFinish(w, s, k).Next?
    ensures Settled(DoFinish(w, s, k).s, k)
  {
    AfterKeeps(s.table[k], s.logs[k], s.busy[k].frame, R.At(s.router, k).r, s.busy[k].env, s.port);
    RouterLeave(w, s.router, k);
  }

  lemma FinishElsewhere(w: R.World, s: State, k: Key)
    requires Settled(s, k) && R.Inv(w, s.router) && DoFinish(w, s, k).Next?
    ensures SameElsewhere(s, DoFinish(w, s, k).s, k)
    ensures R.Inv(w, DoFinish(w, s, k).s.router)
  {
    RouterLeave(w, s.router, k);
  }

  lemma FinishKeeps(w: R.World, s: State, k: Key)
    requires Inv(w, s) && DoFinish(w, s, k).Next?
    ensures Inv(w, DoFinish(w, s, k).s)
  {
    InvAt(w, s, k);
    FinishSettles(w, s, k);
    FinishElsewhere(w, s, k);
    OneChanges(w, s, DoFinish(w, s, k).s, k);
  }

  /**
   The end of an event panics exactly when a frame of an accepted connection is to be written and the router now
   answers otherwise than when the connection was accepted.
   */
  lemma FinishPanicsIff(w: R.World, s: State, k: Key)
    requires Inv(w, s) && k in s.busy && R.At(s.router, k).Selected?
    ensures DoFinish(w, s, k).Panic? <==>
              s.table[k].status.StatusAccepted? && R.At(s.router, k).r != s.table[k].remoteConn
  {
    InvAt(w, s, k);
    AfterKeeps(s.table[k], s.logs[k], s.busy[k].frame, R.At(s.router, k).r, s.busy[k].env, s.port);
    RouterLeave(w, s.router, k);
  }

  lemma RouterEvict(w: R.World, r: R.State, ip: Ip)
    requires R.Inv(w, r)
    ensures R.Do(w, r, R.Evict(ip)).Next?
    ensures R.Inv(w, R.Do(w, r, R.Evict(ip)).s) && R.Do(w, r, R.Evict(ip)).s.pcs == r.pcs
  {
    R.StepKeeps(w, r, R.Evict(ip));
  }

  /** The connection is gone, and the router is `r`. */
  function Without(s: State, k: Key, r: R.State): State {
    s.(live := s.live - {k}, table := s.table - {k}, logs := s.logs - {k}, closing := s.closing - {k}, router := r)
  }

  lemma WithoutKeeps(w: R.World, s: State, k: Key, r: R.State)
    requires Inv(w, s) && k !in s.busy && R.Inv(w, r) && r.pcs == s.router.pcs
    ensures Inv(w, Without(s, k, r))
  {
    InvAt(w, s, k);
    OneChanges(w, s, Without(s, k, r), k);
  }

  lemma CloseKeeps(w: R.World, s: State, k: Key)
    requires Inv(w, s)
    ensures !DoClose(w, s, k).Panic?
    ensures DoClose(w, s, k).Next? ==> Inv(w, DoClose(w, s, k).s)
  {
    InvAt(w, s, k);
    if DoClose(w, s, k).Next? {
      match s.table[k].dstAddr
      case None =>
        WithoutKeeps(w, s, k, s.router);
      case Some(dst) =>
        RouterEvict(w, s.router, dst.ip);
        WithoutKeeps(w, s, k, R.Do(w, s.router, R.Evict(dst.ip)).s);
    }
  }

  /** A closed connection is gone from the table, and of the cache exactly the decision for its destination. */
  lemma CloseEvicts(w: R.World, s: State, k: Key)
    requires Inv(w, s) && k in s.live && k !in s.busy
    ensures DoClose(w, s, k).Next? && k in s.table
    ensures var s', dst := DoClose(w, s, k).s, s.table[k].dstAddr;
            && s'.live == s.live - {k} && s'.table == s.table - {k}
            && s'.router.cache == (if dst.Some? then s.router.cache - {R.Key(dst.value.ip)} else s.router.cache)
            && s'.router.gate == s.router.gate && s'.router.pcs == s.router.pcs
  {
    InvAt(w, s, k);
    if s.table[k].dstAddr.Some? {
      RouterEvict(w, s.router, s.table[k].dstAddr.value.ip);
    }
  }

  lemma InternalKeeps(w: R.World, s: State, a: R.Action)
    requires Inv(w, s)
    ensures !Do(w, s, Internal(a)).Panic?
    ensures Do(w, s, Internal(a)).Next? ==> Inv(w, Do(w, s, Internal(a)).s)
  {
    R.NeverFaults(w, s.router, a);
    if Do(w, s, Internal(a)).Next? {
      if a.Step? {
        InternalThread(w, s, a.t);
      } else {
        InternalUpdater(w, s, a);
      }
    }
  }

  lemma RouterChanges(w: R.World, s: State, r: R.State, t: R.Tid)
    requires Settled(s, t) && !R.At(r, t).Outside? && !R.At(s.router, t).Outside?
    requires R.At(r, t).ip == R.At(s.router, t).ip
    ensures Settled(s.(router := r), t)
  {
  }

  lemma RouterSameElsewhere(s: State, r: R.State, t: R.Tid)
    requires forall u: R.Tid | u != t :: R.At(r, u) == R.At(s.router, u)
    ensures SameElsewhere(s, s.(router := r), t)
  {
  }

  lemma InternalThread(w: R.World, s: State, t: R.Tid)
    requires Inv(w, s) && R.Do(w, s.router, R.Step(t)).Next?
    ensures Inv(w, s.(router := R.Do(w, s.router, R.Step(t)).s))
  {
    var r := R.Do(w, s.router, R.Step(t)).s;
    RouterThreadStep(w, s.router, t);
    InvAt(w, s, t);
    RouterChanges(w, s, r, t);
    RouterSameElsewhere(s, r, t);
    OneChanges(w, s, s.(router := r), t);
  }

  /** Nothing but the threads of the router matters to the connections. */
  lemma SamePcs(w: R.World, s: State, r: R.State)
    requires Inv(w, s) && R.Inv(w, r) && r.pcs == s.router.pcs
    ensures Inv(w, s.(router := r))
  {
    InvAt(w, s, 0);
    assert forall j: Key :: R.At(r, j) == R.At(s.router, j);
    OneChanges(w, s, s.(router := r), 0);
  }

  lemma InternalUpdater(w: R.World, s: State, a: R.Action)
    requires Inv(w, s) && R.Do(w, s.router, a).Next? && R.ByUpdater(a)
    ensures Inv(w, s.(router := R.Do(w, s.router, a).s))
  {
    RouterUpdaterStep(w, s.router, a);
    SamePcs(w, s, R.Do(w, s.router, a).s);
  }

  // ----- Runs

  lemma StepKeeps(w: R.World, s: State, a: Action)
    requires Inv(w, s) && Do(w, s, a).Next?
    ensures Inv(w, Do(w, s, a).s)
  {
    match a
    case Open(k) => OpenKeeps(w, s, k);
    case Receive(k, frame, env) => ReceiveKeeps(w, s, k, frame, env);
    case Finish(k) => FinishKeeps(w, s, k);
    case Close(k) => CloseKeeps(w, s, k);
    case Internal(b) => InternalKeeps(w, s, b);
  }

  lemma InitInv(w: R.World, router: R.State, port: Uint16)
    requires R.Inv(w, router) && router.pcs == map[]
    ensures Inv(w, Init(router, port))
  {
  }

  lemma PortFixed(w: R.World, s: State, a: Action)
    requires Do(w, s, a).Next?
    ensures Do(w, s, a).s.port == s.port
  {
  }

  lemma {:induction false} RunKeeps(w: R.World, s: State, acts: seq<Action>)
    requires Inv(w, s) && Exec(w, s, acts).Next?
    ensures Inv(w, Exec(w, s, acts).s) && Exec(w, s, acts).s.port == s.port
    decreases |acts|
  {
    if acts != [] {
      var acts' := acts[..|acts| - 1];
      RunKeeps(w, s, acts');
      PortFixed(w, Exec(w, s, acts').s, acts[|acts| - 1]);
      StepKeeps(w, Exec(w, s, acts').s, acts[|acts| - 1]);
    }
  }

  /**
   The connection table: in every run, its keys are exactly the open connections, each entry carries its own key, and no
   event is ever handled for a key that is missing.
   */
  lemma ConnectionTable(w: R.World, port: Uint16, router: R.State, acts: seq<Action>, s: State)
    requires R.Inv(w, router) && router.pcs == map[] && Exec(w, Init(router, port), acts) == Next(s)
    ensures s.table.Keys == s.live
    ensures forall k :: k in s.table ==> s.table[k].key == k
    ensures forall k, frame, env :: !Do(w, s, Receive(k, frame, env)).Panic? && !Do(w, s, Close(k)).Panic?
  {
    InitInv(w, router, port);
    RunKeeps(w, Init(router, port), acts);
    forall k | k in s.table ensures s.table[k].key == k {
      assert ConnAt(s, k);
    }
    forall k, frame, env
      ensures !Do(w, s, Receive(k, frame, env)).Panic? && !Do(w, s, Close(k)).Panic?
    {
      ReceiveKeeps(w, s, k, frame, env);
      CloseKeeps(w, s, k);
    }
  }

  /** What a connection's log says of its state. */
  predicate HandshakeOk(c: ConnValue, l: Log, port: Uint16, busy: bool) {
    && (Transports(c) != {} ==>
          && Requested(c, l) && GoodHello(l.frames[0]) && l.selected == Some(Chosen(c).Proxy?)
          && Transports(c) == {Chosen(c)} && Connects(l.asked.value, l.selected.value))
    && (l.sent != [] ==> c.status.StatusAccepted?)
    && (c.status.StatusAccepted? <==> Succeeded(l))
    && (c.status.StatusAccepted? ==>
          && Requested(c, l) && RelayedOk(c, l, busy) && Transports(c) == {Chosen(c)}
          && |l.out| == 2 && l.out[0] == HELLO
          && IsReplyFrame(l.out[1], AnswerCode(l.asked.value, l.selected.value), port))
  }

  lemma ConnShowsHandshake(c: ConnValue, l: Log, port: Uint16, busy: bool, closing: bool)
    requires ConnOk(c, l, port, busy, closing)
    ensures HandshakeOk(c, l, port, busy)
  {
  }

  /**
   Handshake safety and relaying, for every connection in every run that has not panicked. A transport is open only
   after a method request offering no authentication and then a request, whose command and destination the connection
   keeps, and only on the selected side, whose dial has made a connection. The connection is accepted exactly if that
   dial had something to answer and the relay goroutine was submitted. It has then been sent the method reply and the
   reply with the dial's code, and every later frame goes, in order, to the one transport open. Before that nothing is
   relayed.
   */
  lemma HandshakeSafety(w: R.World, port: Uint16, router: R.State, acts: seq<Action>, s: State, k: Key)
    requires R.Inv(w, router) && router.pcs == map[] && Exec(w, Init(router, port), acts) == Next(s) && k in s.live
    ensures k in s.table && k in s.logs && ConnOk(s.table[k], s.logs[k], port, k in s.busy, k in s.closing)
    ensures HandshakeOk(s.table[k], s.logs[k], port, k in s.busy)
  {
    InitInv(w, router, port);
    RunKeeps(w, Init(router, port), acts);
    assert ConnAt(s, k);
    ConnShowsHandshake(s.table[k], s.logs[k], port, k in s.busy, k in s.closing);
  }

  /** The three states in order; an accepted connection keeps command, destination and transports. */
  predicate Advances(c: ConnValue, c': ConnValue) {
    match c.status
    case StatusOpened => !c'.status.StatusAccepted?
    case StatusMethodAccepted => !c'.status.StatusOpened?
    case StatusAccepted => c' == c
  }

  lemma ReceiveAdvances(w: R.World, s: State, k: Key, frame: Frame, env: Env)
    requires Settled(s, k) && k in s.live && DoReceive(w, s, k, frame, env).Next?
    ensures var s' := DoReceive(w, s, k, frame, env).s;
            k in s'.table && Advances(s.table[k], s'.table[k])
  {
    BeforeKeeps(s.table[k], s.logs[k], frame, env, s.port);
  }

  lemma FinishAdvances(w: R.World, s: State, k: Key)
    requires Settled(s, k) && k in s.live && DoFinish(w, s, k).Next?
    ensures var s' := DoFinish(w, s, k).s;
            k in s'.table && Advances(s.table[k], s'.table[k])
  {
    AfterKeeps(s.table[k], s.logs[k], s.busy[k].frame, R.At(s.router, k).r, s.busy[k].env, s.port);
  }

  /** The other connections stay as they are in every step. */
  lemma OthersStay(w: R.World, s: State, a: Action, k: Key)
    requires Do(w, s, a).Next? && (a.Internal? || a.k != k)
    ensures var s' := Do(w, s, a).s;
            (k in s'.table <==> k in s.table) && (k in s.table ==> s'.table[k] == s.table[k])
  {
  }

  lemma StatusOnlyAdvances(w: R.World, s: State, a: Action, k: Key)
    requires Inv(w, s) && Do(w, s, a).Next? && k in s.live && a != Close(k)
    ensures var s' := Do(w, s, a).s;
            k in s'.table && Advances(s.table[k], s'.table[k])
  {
    InvAt(w, s, k);
    if a.Receive? && a.k == k {
      ReceiveAdvances(w, s, k, a.frame, a.env);
    } else if a.Finish? && a.k == k {
      FinishAdvances(w, s, k);
    } else {
      OthersStay(w, s, a, k);
    }
  }

  // ----- Transport consistency

  /** The transport of an accepted connection is the decision of some configuration so far. */
  ghost predicate ChosenBy(w: R.World, configs: set<R.Config>, c: ConnValue) {
    c.status.StatusAccepted? && c.dstAddr.Some? ==> R.Justified(w, configs, c.dstAddr.value.ip, c.remoteConn)
  }

  ghost predicate TransportInv(w: R.World, s: State) {
    forall k :: k in s.table ==> ChosenBy(w, s.router.configs, s.table[k])
  }

  lemma StaysChosen(w: R.World, configs: set<R.Config>, configs': set<R.Config>, c: ConnValue)
    requires configs <= configs' && ChosenBy(w, configs, c)
    ensures ChosenBy(w, configs', c)
  {
    if c.status.StatusAccepted? && c.dstAddr.Some? {
      var d :| d in configs && c.remoteConn == R.Decide(w, d, c.dstAddr.value.ip);
      assert d in configs';
    }
  }

  /** The step of the router that a step of the client contains, if any. */
  function RouterAction(s: State, a: Action): Option<R.Action> {
    match a
    case Open(_) => None
    case Receive(k, frame, env) =>
      if k in s.table && (s.table[k].status.StatusAccepted? ==> s.table[k].dstAddr.Some?)
         && Before(s.table[k], frame, env).Selecting?
      then Some(R.Call(k, Before(s.table[k], frame, env).ip))
      else None
    case Finish(k) => Some(R.Leave(k))
    case Close(k) =>
      if k in s.table && s.table[k].dstAddr.Some? then Some(R.Evict(s.table[k].dstAddr.value.ip)) else None
    case Internal(b) => Some(b)
  }

  lemma RouterMoves(w: R.World, s: State, a: Action)
    requires Do(w, s, a).Next?
    ensures match RouterAction(s, a)
            case None => Do(w, s, a).s.router == s.router
            case Some(b) => R.Do(w, s.router, b) == R.Next(Do(w, s, a).s.router)
  {
  }

  lemma ConfigsGrow(w: R.World, r: R.State, a: R.Action)
    requires R.Do(w, r, a).Next?
    ensures var r' := R.Do(w, r, a).s;
            r.configs <= r'.configs && r'.configs <= r.configs + {R.Current(r')}
  {
    if R.ByUpdater(a) {
      R.UpdaterFrame(w, r, a);
    } else {
      R.OtherStep(w, r, a);
    }
  }

  lemma RunConfigsGrow(w: R.World, s: State, a: Action)
    requires Do(w, s, a).Next?
    ensures s.router.configs <= Do(w, s, a).s.router.configs
  {
    RouterMoves(w, s, a);
    if RouterAction(s, a).Some? {
      ConfigsGrow(w, s.router, RouterAction(s, a).value);
    }
  }

  /** The selection that accepts a connection is justified. */
  lemma FinishChooses(w: R.World, s: State, k: Key)
    requires Inv(w, s) && DoFinish(w, s, k).Next? && k in s.table && ChosenBy(w, s.router.configs, s.table[k])
    ensures var s' := DoFinish(w, s, k).s;
            k in s'.table && ChosenBy(w, s.router.configs, s'.table[k])
  {
    InvAt(w, s, k);
    R.SelectedIsJustified(w, s.router, k);
    AfterKeeps(s.table[k], s.logs[k], s.busy[k].frame, R.At(s.router, k).r, s.busy[k].env, s.port);
  }

  lemma ReceiveChooses(w: R.World, s: State, k: Key, frame: Frame, env: Env)
    requires Inv(w, s) && DoReceive(w, s, k, frame, env).Next? && ChosenBy(w, s.router.configs, s.table[k])
    ensures var s' := DoReceive(w, s, k, frame, env).s;
            k in s'.table && ChosenBy(w, s.router.configs, s'.table[k])
  {
    InvAt(w, s, k);
    BeforeKeeps(s.table[k], s.logs[k], frame, env, s.port);
  }

  lemma ChoiceAt(w: R.World, s: State, a: Action, k: Key)
    requires Inv(w, s) && TransportInv(w, s) && Do(w, s, a).Next? && k in Do(w, s, a).s.table
    ensures ChosenBy(w, s.router.configs, Do(w, s, a).s.table[k])
  {
    if a.Receive? && a.k == k {
      ReceiveChooses(w, s, k, a.frame, a.env);
    } else if a.Finish? && a.k == k {
      FinishChooses(w, s, k);
    } else if a.Internal? || a.k != k {
      OthersStay(w, s, a, k);
    }
  }

  lemma TransportStep(w: R.World, s: State, a: Action)
    requires Inv(w, s) && TransportInv(w, s) && Do(w, s, a).Next?
    ensures TransportInv(w, Do(w, s, a).s)
  {
    var s' := Do(w, s, a).s;
    RunConfigsGrow(w, s, a);
    forall k | k in s'.table ensures ChosenBy(w, s'.router.configs, s'.table[k]) {
      ChoiceAt(w, s, a, k);
      StaysChosen(w, s.router.configs, s'.router.configs, s'.table[k]);
    }
  }

  lemma {:induction false} RunChooses(w: R.World, port: Uint16, router: R.State, acts: seq<Action>)
    requires R.Inv(w, router) && router.pcs == map[] && Exec(w, Init(router, port), acts).Next?
    ensures var s := Exec(w, Init(router, port), acts).s;
            Inv(w, s) && TransportInv(w, s) && router.configs <= s.router.configs
    decreases |acts|
  {
    InitInv(w, router, port);
    RunKeeps(w, Init(router, port), acts);
    if acts != [] {
      var acts', a := acts[..|acts| - 1], acts[|acts| - 1];
      RunChooses(w, port, router, acts');
      var mid := Exec(w, Init(router, port), acts').s;
      TransportStep(w, mid, a);
      RunConfigsGrow(w, mid, a);
    }
  }

  /** Two configurations of the run decide the destination of connection `k` differently. */
  ghost predicate Disputed(w: R.World, s: State, k: Key) {
    && k in s.table && s.table[k].dstAddr.Some?
    && exists c, d :: c in s.router.configs && d in s.router.configs
                      && R.Decide(w, c, s.table[k].dstAddr.value.ip) != R.Decide(w, d, s.table[k].dstAddr.value.ip)
  }

  /** No step panics but the end of an event for a destination on which the configurations so far disagree. */
  lemma PanicIsDisputed(w: R.World, s: State, a: Action)
    requires Inv(w, s) && TransportInv(w, s) && Do(w, s, a).Panic?
    ensures a.Finish? && Disputed(w, s, a.k)
  {
    match a {
      case Open(k) =>
      case Receive(k, frame, env) => ReceiveKeeps(w, s, k, frame, env);
      case Close(k) => CloseKeeps(w, s, k);
      case Internal(b) => InternalKeeps(w, s, b);
      case Finish(k) => FinishIsDisputed(w, s, k);
    }
  }

  lemma FinishIsDisputed(w: R.World, s: State, k: Key)
    requires Inv(w, s) && TransportInv(w, s) && DoFinish(w, s, k).Panic?
    ensures Disputed(w, s, k)
  {
    InvAt(w, s, k);
    FinishPanicsIff(w, s, k);
    R.SelectedIsJustified(w, s.router, k);
    var ip := s.table[k].dstAddr.value.ip;
    assert ChosenBy(w, s.router.configs, s.table[k]);
    var c :| c in s.router.configs && s.table[k].remoteConn == R.Decide(w, c, ip);
    var d :| d in s.router.configs && R.At(s.router, k).r == R.Decide(w, d, ip);
  }

  /** Accepted connections go where the one configuration sends them. */
  predicate TransportAt(w: R.World, c: R.Config, s: State, k: Key) {
    k in s.table && s.table[k].status.StatusAccepted? && s.table[k].dstAddr.Some? ==>
      s.table[k].remoteConn == R.Decide(w, c, s.table[k].dstAddr.value.ip)
  }

  /**
   Transport consistency: at any point of a run until which flag and database have stayed as they were, every accepted
   connection has the one transport open that `Select` picks for its destination, whatever the other connections did,
   and no next step of any connection panics.
   */
  lemma TransportConsistency(w: R.World, port: Uint16, router: R.State, acts: seq<Action>, s: State)
    requires R.Inv(w, router) && router.pcs == map[]
    requires Exec(w, Init(router, port), acts) == Next(s) && s.router.configs == {R.Current(router)}
    ensures Inv(w, s) && R.Current(s.router) == R.Current(router)
    ensures forall k: Key :: TransportAt(w, R.Current(router), s, k)
    ensures forall a :: !Do(w, s, a).Panic?
  {
    RunChooses(w, port, router, acts);
    assert R.Current(s.router) in s.router.configs;
    forall k: Key ensures TransportAt(w, R.Current(router), s, k) {
      assert k in s.table ==> ChosenBy(w, s.router.configs, s.table[k]);
    }
    forall a ensures !Do(w, s, a).Panic? {
      if Do(w, s, a).Panic? {
        PanicIsDisputed(w, s, a);
      }
    }
  }

  predicate NoUpdater(acts: seq<Action>) {
    forall a | a in acts :: a.Internal? ==> a.a.Step?
  }

  lemma NoUpdaterStep(w: R.World, s: State, a: Action)
    requires Do(w, s, a).Next? && (a.Internal? ==> a.a.Step?)
    requires R.Current(s.router) in s.router.configs
    ensures Do(w, s, a).s.router.configs == s.router.configs
  {
    RouterMoves(w, s, a);
    if RouterAction(s, a).Some? {
      R.OtherStep(w, s.router, RouterAction(s, a).value);
      assert s.router.configs + {R.Current(s.router)} == s.router.configs;
    }
  }

  /** With every destination proxied there is no updater, so no run of the client panics at all. */
  lemma {:induction false} ProxyAllNeverPanics(w: R.World, port: Uint16, acts: seq<Action>)
    requires R.FormBlind(w) && NoUpdater(acts)
    ensures var o := Exec(w, Init(R.NewRouter(true, R.Exists, true).value, port), acts);
            && !o.Panic?
            && (o.Next? ==> o.s.router.configs == {R.Config(false, None)}
                            && forall k: Key :: TransportAt(w, R.Config(false, None), o.s, k))
    decreases |acts|
  {
    var router := R.NewRouter(true, R.Exists, true).value;
    R.NewRouterEstablishes(w, true, R.Exists, true);
    if acts != [] {
      var acts', a := acts[..|acts| - 1], acts[|acts| - 1];
      ProxyAllNeverPanics(w, port, acts');
      if Exec(w, Init(router, port), acts').Next? {
        var mid := Exec(w, Init(router, port), acts').s;
        TransportConsistency(w, port, router, acts', mid);
        if Do(w, mid, a).Next? {
          NoUpdaterStep(w, mid, a);
          TransportConsistency(w, port, router, acts, Do(w, mid, a).s);
        }
      }
    }
  }
}
