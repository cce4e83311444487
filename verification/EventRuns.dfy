/**
 Events that nobody disturbs, as runs of the client machine (pkg/core/client.go): what `React` does on the objects is
 what the interleaved machine does when one connection's thread has the router to itself.
 */
module EventRuns {
  import opened Bytes
  import opened Reserved
  import opened Socks5
  import opened Client
  import opened ClientRuns
  import R = RouterProtocol
  import Q = RouterRuns

  // ----- Runs

  lemma {:induction false} Append(w: R.World, s: State, a: seq<Action>, mid: State, b: seq<Action>)
    requires Exec(w, s, a) == Next(mid)
    ensures Exec(w, s, a + b) == Exec(w, mid, b)
    decreases |b|
  {
    if b == [] {
      assert a + b == a;
    } else {
      Append(w, s, a, mid, b[..|b| - 1]);
      assert (a + b)[..|a + b| - 1] == a + b[..|b| - 1];
    }
  }

  lemma Then(w: R.World, s: State, acts: seq<Action>, mid: State, a: Action)
    requires Exec(w, s, acts) == Next(mid)
    ensures Exec(w, s, acts + [a]) == Do(w, mid, a)
  {
    assert (acts + [a])[..|acts|] == acts;
  }

  function Internals(acts: seq<R.Action>): seq<Action> {
    if acts == [] then [] else Internals(acts[..|acts| - 1]) + [Internal(acts[|acts| - 1])]
  }

  /** A run inside the router is a run of the client. */
  lemma {:induction false} Lift(w: R.World, s: State, acts: seq<R.Action>, r: R.State)
    requires R.Exec(w, s.router, acts) == R.Next(r)
    requires forall a | a in acts :: a.Step? || R.ByUpdater(a)
    ensures Exec(w, s, Internals(acts)) == Next(s.(router := r))
    decreases |acts|
  {
    if acts != [] {
      var acts', a := acts[..|acts| - 1], acts[|acts| - 1];
      var mid := R.Exec(w, s.router, acts').s;
      Lift(w, s, acts', mid);
      Then(w, s, Internals(acts'), s.(router := mid), Internal(a));
    }
  }

  lemma {:induction false} InternalsOf(acts: seq<R.Action>, k: Key)
    requires Q.StepsOf(acts, k)
    ensures forall a | a in Internals(acts) :: a == Internal(R.Step(k))
    decreases |acts|
  {
    if acts != [] {
      var acts', last := acts[..|acts| - 1], acts[|acts| - 1];
      assert last in acts;
      forall a | a in acts' ensures a == R.Step(k) {
        assert a in acts;
      }
      InternalsOf(acts', k);
    }
  }

  // ----- One event

  /** Connection `k` alone takes the frame, its thread steps, and the event ends. */
  predicate EventOf(acts: seq<Action>, k: Key, frame: Frame, env: Env) {
    forall a | a in acts :: a == Receive(k, frame, env) || a == Internal(R.Step(k)) || a == Finish(k)
  }

  lemma LeavesRouter(w: R.World, r: R.State, k: Key)
    requires R.At(r, k).Selected? && R.Current(r) in r.configs
    ensures R.Do(w, r, R.Leave(k)) == R.Next(R.Goto(r, k, R.Outside))
  {
    assert r.configs + {R.Current(r)} == r.configs;
  }

  /** What the router answers to an event that nobody disturbs. */
  function Answer(w: R.World, r: R.State): Ip -> bool {
    (ip: Ip) => R.Selection(w, r.cache, R.Current(r), ip)
  }

  /** The event has come to this: a panic, or the connection's new value, its log and its closing. */
  predicate CameTo(o: Outcome, s: State, k: Key, frame: Frame, env: Env, h: SecondHalf)
    requires k in s.table && k in s.logs
  {
    match h
    case NilTransport => o.Panic?
    case Reacted(c, out, action, sent) =>
      && o.Next? && o.s.table == s.table[k := c] && o.s.live == s.live && o.s.busy == s.busy
      && k in o.s.logs && o.s.logs[k].frames == s.logs[k].frames + [frame]
      && o.s.logs[k].out == (if out == [] then s.logs[k].out else s.logs[k].out + [out])
      && o.s.logs[k].sent == (if sent.None? then s.logs[k].sent else s.logs[k].sent + [Sent(sent.value, frame)])
      && o.s.closing == (if action.CloseAction? then s.closing + {k} else s.closing)
  }

  lemma FinishedRuns(w: R.World, s: State, k: Key, frame: Frame, env: Env)
    requires Ready(s, k) && !env.shutdown && Before(s.table[k], frame, env).Finished?
    ensures CameTo(DoReceive(w, s, k, frame, env), s, k, frame, env,
                   Reaction(s.table[k], frame, env, s.port, Answer(w, s.router)))
    ensures DoReceive(w, s, k, frame, env).Next?
  {
  }

  lemma SelectingBegins(w: R.World, s: State, k: Key, frame: Frame, env: Env)
    requires Ready(s, k) && !env.shutdown && Before(s.table[k], frame, env).Selecting?
    requires R.At(s.router, k).Outside? && R.Current(s.router) in s.router.configs
    ensures var b := Before(s.table[k], frame, env);
            DoReceive(w, s, k, frame, env) ==
            Next(s.(table := s.table[k := b.c], logs := s.logs[k := AddFrame(s.logs[k], frame, env)],
                    busy := s.busy[k := Busy(frame, env)], router := R.Goto(s.router, k, R.Looking(b.ip))))
  {
    Q.Calls(w, s.router, k, Before(s.table[k], frame, env).ip);
  }

  /** What the end of an event leaves in the log. */
  lemma EndShows(l: Log, frame: Frame, env: Env, second: bool, selected: bool, out: seq<Byte>, sent: Option<Transport>)
    ensures var l' := EndEvent(AddFrame(l, frame, env), second, selected, out, frame, sent);
            && l'.frames == l.frames + [frame]
            && l'.out == (if out == [] then l.out else l.out + [out])
            && l'.sent == (if sent.None? then l.sent else l.sent + [Sent(sent.value, frame)])
  {
  }

  lemma SelectingEnds(w: R.World, s: State, s2: State, k: Key, c: ConnValue, frame: Frame, env: Env, ip: Ip, r: bool)
    requires k in s.table && k in s.logs && k !in s.busy
    requires R.At(s2.router, k) == R.Selected(ip, r) && R.Current(s2.router) in s2.router.configs
    requires s2 == s.(table := s.table[k := c], logs := s.logs[k := AddFrame(s.logs[k], frame, env)],
                      busy := s.busy[k := Busy(frame, env)], router := s2.router)
    ensures CameTo(DoFinish(w, s2, k), s, k, frame, env, After(c, r, env, s.port))
  {
    LeavesRouter(w, s2.router, k);
    assert s2.busy - {k} == s.busy;
    match After(c, r, env, s.port) {
      case NilTransport =>
      case Reacted(c', out, _, sent) =>
        EndShows(s.logs[k], frame, env, c.status.StatusMethodAccepted?, r, out, sent);
        assert s2.table[k := c'] == s.table[k := c'];
    }
  }

  lemma SelectingRuns(w: R.World, s: State, k: Key, frame: Frame, env: Env) returns (acts: seq<Action>)
    requires Ready(s, k) && !env.shutdown && Before(s.table[k], frame, env).Selecting?
    requires R.At(s.router, k).Outside? && Q.Quiet(s.router)
    ensures EventOf(acts, k, frame, env)
    ensures CameTo(Exec(w, s, acts), s, k, frame, env,
                   Reaction(s.table[k], frame, env, s.port, Answer(w, s.router)))
  {
    var b := Before(s.table[k], frame, env);
    SelectingBegins(w, s, k, frame, env);
    var s1 := DoReceive(w, s, k, frame, env).s;
    Then(w, s, [], s, Receive(k, frame, env));
    var more, s2 := SelectingSelects(w, s1, k, b.ip);
    Append(w, s, [] + [Receive(k, frame, env)], s1, more);
    acts := [] + [Receive(k, frame, env)] + more;
    SelectingEnds(w, s, s2, k, b.c, frame, env, b.ip, Answer(w, s.router)(b.ip));
    Then(w, s, acts, s2, Finish(k));
    acts := acts + [Finish(k)];
  }

  lemma SelectingSelects(w: R.World, s: State, k: Key, ip: Ip) returns (acts: seq<Action>, s': State)
    requires R.At(s.router, k) == R.Looking(ip) && Q.Quiet(s.router)
    ensures Exec(w, s, acts) == Next(s') && forall a | a in acts :: a == Internal(R.Step(k))
    ensures s' == s.(router := s'.router) && R.Current(s'.router) in s'.router.configs
    ensures R.At(s'.router, k) == R.Selected(ip, Answer(w, s.router)(ip))
  {
    var select, r := Q.HitsOrSelects(w, s.router, k, ip);
    Lift(w, s, select, r);
    InternalsOf(select, k);
    acts, s' := Internals(select), s.(router := r);
  }

  /**
   An event that nobody disturbs comes, in the machine, to exactly what `React` does on the objects: from any state of
   any run in which the connection can take a frame and nobody holds the router's lock, some run of that connection's
   event and its thread alone ends as the event function says.
   */
  lemma ReactRuns(w: R.World, s: State, k: Key, frame: Frame, env: Env) returns (acts: seq<Action>)
    requires Inv(w, s) && Ready(s, k) && !env.shutdown && Q.Quiet(s.router)
    ensures EventOf(acts, k, frame, env)
    ensures CameTo(Exec(w, s, acts), s, k, frame, env,
                   Reaction(s.table[k], frame, env, s.port, Answer(w, s.router)))
  {
    InvAt(w, s, k);
    if Before(s.table[k], frame, env).Finished? {
      FinishedRuns(w, s, k, frame, env);
      Then(w, s, [], s, Receive(k, frame, env));
      acts := [] + [Receive(k, frame, env)];
    } else {
      acts := SelectingRuns(w, s, k, frame, env);
    }
  }
}
