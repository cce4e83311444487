/**
 When the client can panic (pkg/core/client.go, pkg/core/router.go): the router changes its mind about a destination
 between the acceptance of a connection and one of its later frames, a racing selection overwrites the cached answer,
 and the frame goes to a transport that was never opened. The exact condition is found over the start of the router,
 the contents of the databases and the number of downloads.
 */
module SwitchPanic {
  import opened Bytes
  import opened Reserved
  import opened Socks5
  import opened Client
  import opened ClientRuns
  import opened EventRuns
  import R = RouterProtocol
  import Q = RouterRuns
  import D = StaleDecisions

  // ----- A connection that shakes hands and asks for an address

  const HELLO_FRAME: Frame := [5, 1, 0]

  function TheRequest(ip: Ip): Request {
    Request(5, CMD_CONNECT, 0, ATYPE_IPV4, ip, 80)
  }

  const ALL_WELL := Env(false, None, Dialled(Some(0)), true, true)

  function Asked(k: Key, ip: Address): ConnValue {
    ConnValue(k, StatusMethodAccepted, Some(Addr(ip, 80)), CMD_CONNECT, false, false)
  }

  function Accepted(k: Key, ip: Address, proxied: bool): ConnValue {
    ConnValue(k, StatusAccepted, Some(Addr(ip, 80)), CMD_CONNECT, proxied, !proxied)
  }

  /** Connection `k` is open, stands at `c` and can take a frame. */
  predicate Stands(s: State, k: Key, c: ConnValue) {
    k in s.live && k !in s.busy && k !in s.closing && k in s.logs && k in s.table && s.table[k] == c
  }

  /** Connection `k` has asked for the address and waits for its selection. */
  predicate Awaits(s: State, k: Key, ip: Address) {
    && k in s.live && k in s.busy && s.busy[k].env == ALL_WELL && k !in s.closing && k in s.logs
    && k in s.table && s.table[k] == Asked(k, ip)
  }

  lemma FramesParse(ip: Ip)
    requires |ip| == 4
    ensures GoodHello(HELLO_FRAME)
    ensures ParseRequest(Layout(TheRequest(ip))) == Success(TheRequest(ip))
  {
    assert HELLO_FRAME[2..3] == [0];
    LayoutParses(TheRequest(ip), []);
    assert Layout(TheRequest(ip)) + [] == Layout(TheRequest(ip));
  }

  lemma SaysHello(w: R.World, s: State, k: Key)
    requires Stands(s, k, NewConnValue(k)) && GoodHello(HELLO_FRAME)
    ensures var o := DoReceive(w, s, k, HELLO_FRAME, ALL_WELL);
            && o.Next? && o.s.live == s.live && o.s.router == s.router
            && Stands(o.s, k, NewConnValue(k).(status := StatusMethodAccepted))
  {
  }

  lemma Requests(w: R.World, s: State, k: Key, ip: Ip)
    requires |ip| == 4 && R.At(s.router, k).Outside? && R.Current(s.router) in s.router.configs
    requires Stands(s, k, NewConnValue(k).(status := StatusMethodAccepted))
    ensures var o := DoReceive(w, s, k, Layout(TheRequest(ip)), ALL_WELL);
            && o.Next? && o.s.live == s.live && o.s.router == R.Goto(s.router, k, R.Looking(ip))
            && Awaits(o.s, k, ip)
  {
    FramesParse(ip);
    Q.Calls(w, s.router, k, ip);
  }

  /** A new connection shakes hands and asks for the address. */
  lemma Asks(w: R.World, s: State, k: Key, ip: Ip) returns (acts: seq<Action>, s': State)
    requires Inv(w, s) && |ip| == 4 && k !in s.live
    ensures Exec(w, s, acts) == Next(s') && s'.live == s.live + {k}
    ensures Awaits(s', k, ip) && s'.router == R.Goto(s.router, k, R.Looking(ip))
  {
    var hello, request := Receive(k, HELLO_FRAME, ALL_WELL), Receive(k, Layout(TheRequest(ip)), ALL_WELL);
    FramesParse(ip);
    InvAt(w, s, k);
    var s1 := DoOpen(s, k).s;
    assert Stands(s1, k, NewConnValue(k));
    SaysHello(w, s1, k);
    var s2 := DoReceive(w, s1, k, hello.frame, ALL_WELL).s;
    Requests(w, s2, k, ip);
    s' := DoReceive(w, s2, k, request.frame, ALL_WELL).s;
    Then(w, s, [], s, Open(k));
    Then(w, s, [] + [Open(k)], s1, hello);
    Then(w, s, [] + [Open(k)] + [hello], s2, request);
    acts := [] + [Open(k)] + [hello] + [request];
  }

  // ----- A connection that is accepted

  lemma IsAccepted(w: R.World, s: State, k: Key, ip: Address, proxied: bool)
    requires Awaits(s, k, ip) && R.At(s.router, k) == R.Selected(ip, proxied) && R.Current(s.router) in s.router.configs
    ensures var o := DoFinish(w, s, k);
            && o.Next? && o.s.router == R.Goto(s.router, k, R.Outside)
            && Stands(o.s, k, Accepted(k, ip, proxied))
  {
    LeavesRouter(w, s.router, k);
  }

  /** A connection that has asked is accepted as the router decides at present. */
  lemma GetsAccepted(w: R.World, s: State, k: Key, ip: Address) returns (acts: seq<Action>, s': State)
    requires Awaits(s, k, ip) && Q.Quiet(s.router)
    requires R.At(s.router, k) == R.Looking(ip) && R.Key(ip) !in s.router.cache
    ensures Exec(w, s, acts) == Next(s')
    ensures Stands(s', k, Accepted(k, ip, R.Decide(w, R.Current(s.router), ip)))
    ensures var r := s.router;
            s'.router == r.(pcs := r.pcs[k := R.Outside], cache := s'.router.cache, answers := s'.router.answers)
  {
    var select, r := Q.Selects(w, s.router, k, ip);
    Lift(w, s, select, r);
    IsAccepted(w, s.(router := r), k, ip, R.Decide(w, R.Current(s.router), ip));
    s' := DoFinish(w, s.(router := r), k).s;
    Then(w, s, Internals(select), s.(router := r), Finish(k));
    acts := Internals(select) + [Finish(k)];
    assert s'.router.pcs == s.router.pcs[k := R.Outside];
  }

  /** One thread misses the cache and stands still before the lock. */
  lemma Misses(w: R.World, s: State, k: Key, ip: Ip) returns (acts: seq<Action>, s': State)
    requires R.At(s.router, k) == R.Looking(ip) && R.Key(ip) !in s.router.cache
    requires R.Current(s.router) in s.router.configs
    ensures Exec(w, s, acts) == Next(s')
    ensures s' == s.(router := R.Goto(s.router, k, R.Missed(ip)))
  {
    var r := R.Goto(s.router, k, R.Missed(ip));
    Q.StepTo(w, s.router, [], s.router, k, r);
    Lift(w, s, [] + [R.Step(k)], r);
    acts := Internals([] + [R.Step(k)]);
    s' := s.(router := r);
  }

  // ----- The next frame

  lemma FrameBegins(w: R.World, s: State, k: Key, ip: Address, proxied: bool, frame: Frame)
    requires Stands(s, k, Accepted(k, ip, proxied))
    requires R.At(s.router, k).Outside? && R.Current(s.router) in s.router.configs
    ensures var o := DoReceive(w, s, k, frame, ALL_WELL);
            && o.Next? && o.s.router == R.Goto(s.router, k, R.Looking(ip))
            && k in o.s.busy && k in o.s.logs && k in o.s.table && o.s.table[k] == Accepted(k, ip, proxied)
  {
    Q.Calls(w, s.router, k, ip);
  }

  lemma HitsCache(w: R.World, r: R.State, k: Key, ip: Ip)
    requires R.At(r, k) == R.Looking(ip) && R.Key(ip) in r.cache && R.Current(r) in r.configs
    ensures R.Do(w, r, R.Step(k)) == R.Next(R.Goto(r, k, R.Selected(ip, r.cache[R.Key(ip)])))
  {
    assert r.configs + {R.Current(r)} == r.configs;
  }

  lemma WritesToNil(w: R.World, s: State, k: Key, ip: Address, proxied: bool)
    requires k in s.busy && k in s.logs && k in s.table && s.table[k] == Accepted(k, ip, proxied)
    requires R.At(s.router, k) == R.Selected(ip, !proxied) && R.Current(s.router) in s.router.configs
    ensures DoFinish(w, s, k).Panic?
  {
    LeavesRouter(w, s.router, k);
  }

  /** The next frame of an accepted connection, when the cache says otherwise than at its acceptance, panics. */
  lemma FramePanics(w: R.World, s: State, k: Key, ip: Address, proxied: bool, frame: Frame)
    returns (acts: seq<Action>, s': State)
    requires Stands(s, k, Accepted(k, ip, proxied)) && R.At(s.router, k).Outside?
    requires R.Current(s.router) in s.router.configs
    requires R.Key(ip) in s.router.cache && s.router.cache[R.Key(ip)] != proxied
    ensures Exec(w, s, acts) == Next(s') && s'.router.gate == s.router.gate
    ensures Do(w, s', Finish(k)).Panic?
  {
    FrameBegins(w, s, k, ip, proxied, frame);
    var s1 := DoReceive(w, s, k, frame, ALL_WELL).s;
    Then(w, s, [], s, Receive(k, frame, ALL_WELL));
    HitsCache(w, s1.router, k, ip);
    s' := s1.(router := R.Goto(s1.router, k, R.Selected(ip, !proxied)));
    Then(w, s, [] + [Receive(k, frame, ALL_WELL)], s1, Internal(R.Step(k)));
    WritesToNil(w, s', k, ip, proxied);
    acts := [] + [Receive(k, frame, ALL_WELL)] + [Internal(R.Step(k))];
  }

  // ----- A run that panics

  /** Connection 1 waits with a miss, connection 0 is accepted; the updater has not moved meanwhile. */
  lemma TwoConnections(w: R.World, s: State, ip: Ip) returns (acts: seq<Action>, s': State)
    requires Inv(w, s) && |ip| == 4 && s.live == {} && Q.Quiet(s.router) && R.Key(ip) !in s.router.cache
    ensures Exec(w, s, acts) == Next(s') && Q.Quiet(s'.router) && s'.router.gate == s.router.gate
    ensures R.At(s'.router, 0).Outside? && R.At(s'.router, 1) == R.Missed(ip)
    ensures Stands(s', 0, Accepted(0, ip, R.Decide(w, R.Current(s.router), ip)))
  {
    var ask1, s1 := Asks(w, s, 1, ip);
    var miss, s2 := Misses(w, s1, 1, ip);
    Append(w, s, ask1, s1, miss);
    RunKeeps(w, s, ask1 + miss);
    var ask0, s3 := Asks(w, s2, 0, ip);
    Append(w, s, ask1 + miss, s2, ask0);
    var accept;
    accept, s' := GetsAccepted(w, s3, 0, ip);
    Append(w, s, ask1 + miss + ask0, s3, accept);
    acts := ask1 + miss + ask0 + accept;
  }

  /** The updater turns the decision around, and the thread that stood still stores the new one. */
  lemma TurnedUnderneath(w: R.World, s: State, k: Key, ip: Ip) returns (acts: seq<Action>, s': State)
    requires R.At(s.router, k) == R.Missed(ip) && Q.Quiet(s.router) && D.OnTheBrink(w, s.router.gate, ip)
    ensures Exec(w, s, acts) == Next(s') && s' == s.(router := s'.router) && Q.Quiet(s'.router)
    ensures forall j: Key | j != k :: R.At(s'.router, j) == R.At(s.router, j)
    ensures R.Key(ip) in s'.router.cache
    ensures s'.router.cache[R.Key(ip)] != R.Decide(w, R.Current(s.router), ip)
    ensures s'.router.gate.rounds == D.RoundsToFlip(s.router.gate)
  {
    var flip, r1 := D.Flips(w, s.router, ip);
    var complete, r2 := Q.Completes(w, r1, k, ip);
    Q.ExecAppend(w, s.router, flip, r1, complete);
    Lift(w, s, flip + complete, r2);
    acts := Internals(flip + complete);
    s' := s.(router := r2);
  }

  /** The run `acts` of a client with at most `m` downloads ends where the step `a` panics. */
  predicate PanicsAfter(w: R.World, port: Uint16, router: R.State, m: nat, acts: seq<Action>, a: Action) {
    match Exec(w, Init(router, port), acts)
    case Next(s) => s.router.gate.rounds <= m && Do(w, s, a).Panic?
    case _ => false
  }

  /**
   For every IPv4 address that is not reserved and every database, among those the router starts with or publishes in
   `m` downloads, that calls it domestic, some run of the client panics: its first connection is accepted, and a later
   frame of it is to be written to the transport that does not exist.
   */
  lemma SomeRunPanics(geo: (R.DbId, Ip) -> R.Verdict, stat: R.Stat, port: Uint16, m: nat, ip: Ip, db: R.DbId)
    returns (acts: seq<Action>)
    requires !stat.StatFails? && m > 0 && |ip| == 4 && !IsReserved(ip)
    requires db < D.Start(stat).gate.nextDb + m && geo(db, ip) == R.Domestic
    ensures PanicsAfter(R.TableWorld(geo), port, D.Start(stat), m, acts, Finish(0))
  {
    var w, s0 := R.TableWorld(geo), Init(D.Start(stat), port);
    R.TableIsFormBlind(geo);
    D.StartsWell(w, stat);
    InitInv(w, s0.router, port);
    var toBrink, r := D.ToTheBrink(w, stat, m, ip, db);
    Lift(w, s0, toBrink, r);
    var s1 := s0.(router := r);
    RunKeeps(w, s0, Internals(toBrink));
    var connect, s2 := TwoConnections(w, s1, ip);
    Append(w, s0, Internals(toBrink), s1, connect);
    var turn, s3 := TurnedUnderneath(w, s2, 1, ip);
    Append(w, s0, Internals(toBrink) + connect, s2, turn);
    var frame, s4 := FramePanics(w, s3, 0, ip, R.Decide(w, R.Current(s2.router), ip), [0]);
    Append(w, s0, Internals(toBrink) + connect + turn, s3, frame);
    acts := Internals(toBrink) + connect + turn + frame;
  }

  // ----- The exact condition

  /** What the history of the router keeps, it keeps in runs of the client. */
  lemma {:induction false} HistoryRun(w: R.World, port: Uint16, router: R.State, acts: seq<Action>, base: nat)
    requires R.Inv(w, router) && router.pcs == map[] && D.HistoryInv(router, base)
    requires Exec(w, Init(router, port), acts).Next?
    ensures D.HistoryInv(Exec(w, Init(router, port), acts).s.router, base)
    decreases |acts|
  {
    if acts != [] {
      var acts', a := acts[..|acts| - 1], acts[|acts| - 1];
      HistoryRun(w, port, router, acts', base);
      RunChooses(w, port, router, acts');
      var mid := Exec(w, Init(router, port), acts').s;
      RouterMoves(w, mid, a);
      if RouterAction(mid, a).Some? {
        D.HistoryStep(w, mid.router, RouterAction(mid, a).value, base);
      }
    }
  }

  /** A destination over which runs can panic: it is IPv4, not reserved, and some database calls it domestic. */
  ghost predicate DomesticDestination(geo: (R.DbId, Ip) -> R.Verdict, n: nat, ip: Ip) {
    |ip| == 4 && !IsReserved(ip) && D.SomeDomestic(geo, n, ip)
  }

  /** An address that is not reserved has its four octets for its key. */
  lemma TwoWaysDestination(geo: (R.DbId, Ip) -> R.Verdict, base: nat, m: nat, ip: Address)
    requires D.TwoWays(R.TableWorld(geo), base, m, ip)
    ensures DomesticDestination(geo, base + m, R.Key(ip))
  {
    ReservedIff(ip);
    R.TableIsFormBlind(geo);
    assert R.TableWorld(geo).reserved(R.Key(ip)) == R.TableWorld(geo).reserved(ip);
  }

  lemma PanicNeedsDomestic(geo: (R.DbId, Ip) -> R.Verdict, stat: R.Stat, port: Uint16, m: nat,
                           acts: seq<Action>, a: Action) returns (ip: Ip)
    requires !stat.StatFails? && PanicsAfter(R.TableWorld(geo), port, D.Start(stat), m, acts, a)
    ensures m > 0 && DomesticDestination(geo, D.Start(stat).gate.nextDb + m, ip)
  {
    var w, start := R.TableWorld(geo), D.Start(stat);
    R.TableIsFormBlind(geo);
    D.StartsWell(w, stat);
    RunChooses(w, port, start, acts);
    HistoryRun(w, port, start, acts, start.gate.nextDb);
    var s := Exec(w, Init(start, port), acts).s;
    PanicIsDisputed(w, s, a);
    var dst := s.table[a.k].dstAddr.value.ip;
    var c, d :| c in s.router.configs && d in s.router.configs && R.Decide(w, c, dst) != R.Decide(w, d, dst);
    if !D.TwoWays(w, start.gate.nextDb, m, dst) {
      D.OneWay(w, s.router, start.gate.nextDb, m, dst, c, d);
    }
    TwoWaysDestination(geo, start.gate.nextDb, m, dst);
    ip := R.Key(dst);
  }

  /**
   When the client can panic at all: within `m` downloads exactly if there is one and some IPv4 address that is not
   reserved is called domestic by a database that the router starts with or that one of the `m` downloads publishes. The
   client begins at most one download.
   */
  lemma PanicIff(geo: (R.DbId, Ip) -> R.Verdict, stat: R.Stat, port: Uint16, m: nat)
    requires !stat.StatFails?
    ensures var w, start := R.TableWorld(geo), D.Start(stat);
            var n := start.gate.nextDb + m;
            (exists acts, a :: PanicsAfter(w, port, start, m, acts, a)) <==>
            m > 0 && exists ip :: DomesticDestination(geo, n, ip)
  {
    var w, start := R.TableWorld(geo), D.Start(stat);
    var n := start.gate.nextDb + m;
    if m > 0 && exists ip :: DomesticDestination(geo, n, ip) {
      var ip :| DomesticDestination(geo, n, ip);
      var db: R.DbId :| db < n && geo(db, ip) == R.Domestic;
      var acts := SomeRunPanics(geo, stat, port, m, ip, db);
      assert PanicsAfter(w, port, start, m, acts, Finish(0));
    } else {
      forall acts, a ensures !PanicsAfter(w, port, start, m, acts, a) {
        if PanicsAfter(w, port, start, m, acts, a) {
          var ip := PanicNeedsDomestic(geo, stat, port, m, acts, a);
        }
      }
    }
  }
}
