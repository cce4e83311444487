/**
 Runs of the router (pkg/core/router.go) in which one thread is not disturbed: what `Select` comes to, step by step, and
 what a router decides that has just been constructed.
 */
module RouterRuns {
  import opened Bytes
  import opened Reserved
  import opened RouterProtocol

  // ----- Steps and runs

  lemma Extend(w: World, s: State, acts: seq<Action>, mid: State, a: Action, s': State)
    requires Exec(w, s, acts) == Next(mid) && Do(w, mid, a) == Next(s')
    ensures Exec(w, s, acts + [a]) == Next(s')
  {
    assert (acts + [a])[..|acts|] == acts;
  }

  lemma {:induction false} ExecAppend(w: World, s: State, a: seq<Action>, mid: State, b: seq<Action>)
    requires Exec(w, s, a) == Next(mid)
    ensures Exec(w, s, a + b) == Exec(w, mid, b)
    decreases |b|
  {
    if b == [] {
      assert a + b == a;
    } else {
      var b' := b[..|b| - 1];
      ExecAppend(w, s, a, mid, b');
      assert (a + b)[..|a + b| - 1] == a + b';
    }
  }

  /** One step of a thread; it records no new configuration. */
  lemma StepTo(w: World, s: State, acts: seq<Action>, mid: State, t: Tid, s': State)
    requires Exec(w, s, acts) == Next(mid) && DoStep(w, mid, t) == Next(s') && Current(s') in mid.configs
    requires s'.configs == mid.configs
    ensures Exec(w, s, acts + [Step(t)]) == Next(s')
  {
    assert mid.configs + {Current(s')} == mid.configs;
    Extend(w, s, acts, mid, Step(t), s');
  }

  /** Nobody holds the lock, and the flag is on only with a database. */
  predicate Quiet(s: State) {
    !s.gate.writer && s.readers == {} && (s.gate.on ==> Ready(s.gate)) && Current(s) in s.configs
  }

  predicate StepsOf(acts: seq<Action>, t: Tid) {
    forall a | a in acts :: a == Step(t)
  }

  /** Without a lookup: the address is reserved, or the flag is off. */
  lemma AnswersAtOnce(w: World, s: State, t: Tid, ip: Ip)
    requires At(s, t) == Missed(ip) && Quiet(s) && (w.reserved(ip) || !s.gate.on)
    ensures Exec(w, s, [Step(t)] + [Step(t)]) ==
            Next(s.(pcs := s.pcs[t := Answered(ip, Decide(w, Current(s), ip))], readers := {t}))
  {
    var r := Decide(w, Current(s), ip);
    var s1 := Goto(s, t, Reading(ip)).(readers := {t});
    StepTo(w, s, [], s, t, s1);
    assert [] + [Step(t)] == [Step(t)];
    assert s1.pcs[t := Answered(ip, r)] == s.pcs[t := Answered(ip, r)];
    StepTo(w, s, [Step(t)], s1, t, s.(pcs := s.pcs[t := Answered(ip, r)], readers := {t}));
  }

  lemma Tests(w: World, s: State, t: Tid, ip: Ip)
    requires At(s, t) == Missed(ip) && Quiet(s) && !w.reserved(ip) && s.gate.on
    ensures Exec(w, s, [Step(t)] + [Step(t)]) == Next(s.(pcs := s.pcs[t := Tested(ip)], readers := {t}))
  {
    var s1 := Goto(s, t, Reading(ip)).(readers := {t});
    StepTo(w, s, [], s, t, s1);
    assert [] + [Step(t)] == [Step(t)];
    assert s1.pcs[t := Tested(ip)] == s.pcs[t := Tested(ip)];
    StepTo(w, s, [Step(t)], s1, t, s.(pcs := s.pcs[t := Tested(ip)], readers := {t}));
  }

  /** A thread that missed the cache, undisturbed, computes what the present configuration decides. */
  lemma Answers(w: World, s: State, t: Tid, ip: Ip) returns (acts: seq<Action>, s': State)
    requires At(s, t) == Missed(ip) && Quiet(s)
    ensures Exec(w, s, acts) == Next(s') && StepsOf(acts, t)
    ensures s' == s.(pcs := s.pcs[t := Answered(ip, Decide(w, Current(s), ip))], readers := {t})
  {
    acts := [Step(t)] + [Step(t)];
    s' := s.(pcs := s.pcs[t := Answered(ip, Decide(w, Current(s), ip))], readers := {t});
    if w.reserved(ip) || !s.gate.on {
      AnswersAtOnce(w, s, t, ip);
    } else {
      Tests(w, s, t, ip);
      var s1 := s.(pcs := s.pcs[t := Tested(ip)], readers := {t});
      var more, s2 := LooksUp(w, s1, t, ip);
      assert s2.pcs == s'.pcs;
      ExecAppend(w, s, acts, s1, more);
      acts := acts + more;
    }
  }

  lemma LooksUp(w: World, s: State, t: Tid, ip: Ip) returns (acts: seq<Action>, s': State)
    requires At(s, t) == Tested(ip) && Ready(s.gate) && Current(s) in s.configs
    ensures Exec(w, s, acts) == Next(s') && StepsOf(acts, t)
    ensures s' == s.(pcs := s.pcs[t := Answered(ip, w.geo(s.gate.db.value, Key(ip)) != Domestic)])
  {
    var db := s.gate.db.value;
    var s1 := Goto(s, t, InLookup(ip, db));
    StepTo(w, s, [], s, t, s1);
    s' := s.(pcs := s.pcs[t := Answered(ip, w.geo(db, Key(ip)) != Domestic)]);
    assert s1.pcs[t := Answered(ip, w.geo(db, Key(ip)) != Domestic)] == s'.pcs;
    StepTo(w, s, [] + [Step(t)], s1, t, s');
    acts := [] + [Step(t)] + [Step(t)];
  }

  /** An answer is returned and stored. */
  lemma Stores(w: World, s: State, t: Tid, ip: Ip, r: bool) returns (acts: seq<Action>, s': State)
    requires At(s, t) == Answered(ip, r) && s.readers == {t} && Current(s) in s.configs
    ensures Exec(w, s, acts) == Next(s') && StepsOf(acts, t)
    ensures s' == s.(pcs := s.pcs[t := Selected(ip, r)], readers := {}, cache := s.cache[Key(ip) := r],
                     answers := s.answers + {(Key(ip), r)})
  {
    var s1 := Goto(s, t, Storing(ip, r)).(readers := {}, answers := s.answers + {(Key(ip), r)});
    assert s.readers - {t} == {};
    StepTo(w, s, [], s, t, s1);
    s' := s.(pcs := s.pcs[t := Selected(ip, r)], readers := {}, cache := s.cache[Key(ip) := r],
             answers := s.answers + {(Key(ip), r)});
    assert s1.pcs[t := Selected(ip, r)] == s'.pcs;
    StepTo(w, s, [] + [Step(t)], s1, t, s');
    acts := [] + [Step(t)] + [Step(t)];
  }

  /** From the miss to the result: the present decision, stored and selected. */
  lemma Completes(w: World, s: State, t: Tid, ip: Ip) returns (acts: seq<Action>, s': State)
    requires At(s, t) == Missed(ip) && Quiet(s)
    ensures Exec(w, s, acts) == Next(s') && StepsOf(acts, t)
    ensures var r := Decide(w, Current(s), ip);
            s' == s.(pcs := s.pcs[t := Selected(ip, r)], cache := s.cache[Key(ip) := r],
                     answers := s.answers + {(Key(ip), r)})
  {
    var r := Decide(w, Current(s), ip);
    var answer, s1 := Answers(w, s, t, ip);
    var store;
    store, s' := Stores(w, s1, t, ip, r);
    ExecAppend(w, s, answer, s1, store);
    acts := answer + store;
    assert s1.pcs[t := Selected(ip, r)] == s.pcs[t := Selected(ip, r)];
  }

  /** A whole selection of an address that is not cached. */
  lemma Selects(w: World, s: State, t: Tid, ip: Ip) returns (acts: seq<Action>, s': State)
    requires At(s, t) == Looking(ip) && Quiet(s) && Key(ip) !in s.cache
    ensures Exec(w, s, acts) == Next(s') && StepsOf(acts, t)
    ensures var r := Decide(w, Current(s), ip);
            s' == s.(pcs := s.pcs[t := Selected(ip, r)], cache := s.cache[Key(ip) := r],
                     answers := s.answers + {(Key(ip), r)})
  {
    var missed := Goto(s, t, Missed(ip));
    StepTo(w, s, [], s, t, missed);
    var complete;
    complete, s' := Completes(w, missed, t, ip);
    ExecAppend(w, s, [] + [Step(t)], missed, complete);
    acts := [] + [Step(t)] + complete;
    assert s'.pcs == s.pcs[t := Selected(ip, Decide(w, Current(s), ip))];
  }

  /** A selection of an address that is cached. */
  lemma Hits(w: World, s: State, t: Tid, ip: Ip)
    requires At(s, t) == Looking(ip) && Key(ip) in s.cache && Current(s) in s.configs
    ensures Exec(w, s, [Step(t)]) == Next(Goto(s, t, Selected(ip, s.cache[Key(ip)])))
  {
    StepTo(w, s, [], s, t, Goto(s, t, Selected(ip, s.cache[Key(ip)])));
    assert [] + [Step(t)] == [Step(t)];
  }

  lemma HitsOrSelects(w: World, s: State, t: Tid, ip: Ip) returns (acts: seq<Action>, s': State)
    requires At(s, t) == Looking(ip) && Quiet(s)
    ensures Exec(w, s, acts) == Next(s') && StepsOf(acts, t)
    ensures var r := Selection(w, s.cache, Current(s), ip);
            s' == s.(pcs := s.pcs[t := Selected(ip, r)], cache := s.cache[Key(ip) := r], answers := s'.answers)
  {
    if Key(ip) in s.cache {
      Hits(w, s, t, ip);
      acts, s' := [Step(t)], Goto(s, t, Selected(ip, s.cache[Key(ip)]));
      assert s.cache[Key(ip) := s.cache[Key(ip)]] == s.cache;
    } else {
      acts, s' := Selects(w, s, t, ip);
    }
  }

  lemma Calls(w: World, s: State, t: Tid, ip: Ip)
    requires At(s, t).Outside? && Current(s) in s.configs
    ensures Do(w, s, Call(t, ip)) == Next(Goto(s, t, Looking(ip)))
  {
    assert s.configs + {Current(s)} == s.configs;
  }

  /**
   A whole selection that nobody disturbs: its thread alone calls and steps. It ends with the cached value if there is
   one; otherwise the address is for the proxy unless it is reserved, or the flag is on and the database calls it
   domestic. Either way that answer is what the cache then holds, and nothing else of the cache or the gate changes.
   */
  lemma SelectRuns(w: World, s: State, t: Tid, ip: Ip) returns (acts: seq<Action>, s': State)
    requires At(s, t).Outside? && Quiet(s)
    ensures Exec(w, s, [Call(t, ip)] + acts) == Next(s') && StepsOf(acts, t)
    ensures var r := Selection(w, s.cache, Current(s), ip);
            && s' == s.(pcs := s.pcs[t := Selected(ip, r)], cache := s.cache[Key(ip) := r], answers := s'.answers)
            && (Key(ip) in s.cache ==> r == s.cache[Key(ip)])
            && (Key(ip) !in s.cache ==>
                  (!r <==> w.reserved(ip) || (s.gate.on && w.geo(s.gate.db.value, Key(ip)) == Domestic)))
  {
    var called := Goto(s, t, Looking(ip));
    Calls(w, s, t, ip);
    Extend(w, s, [], s, Call(t, ip), called);
    assert [] + [Call(t, ip)] == [Call(t, ip)];
    acts, s' := HitsOrSelects(w, called, t, ip);
    ExecAppend(w, s, [Call(t, ip)], called, acts);
    var r := Selection(w, s.cache, Current(s), ip);
    assert s'.pcs == s.pcs[t := Selected(ip, r)];
  }

  // ----- Construction

  /** The router is to decide by country, and finds a database file that opens. */
  predicate FindsDatabase(proxyAll: bool, stat: Stat, openOk: bool) {
    !proxyAll && stat.Exists? && openOk
  }

  /**
   Construction fails exactly when the router is to decide by country and the file either cannot be examined, other than
   for being absent, or is there and does not open. Otherwise the flag is on, and a database held, exactly when a file
   has been found and opened; nothing is cached and nobody is inside.
   */
  lemma ConstructionIff(proxyAll: bool, stat: Stat, openOk: bool)
    ensures NewRouter(proxyAll, stat, openOk).None? <==> !proxyAll && (stat.StatFails? || (stat.Exists? && !openOk))
    ensures NewRouter(proxyAll, stat, openOk).Some? ==>
              var s := NewRouter(proxyAll, stat, openOk).value;
              && (s.gate.on <==> FindsDatabase(proxyAll, stat, openOk))
              && (s.gate.db.Some? <==> FindsDatabase(proxyAll, stat, openOk))
              && s.cache == map[] && Quiet(s) && forall t: Tid :: At(s, t).Outside?
  {
  }

  /**
   How construction shows: the first undisturbed selection of an address that is not reserved is direct exactly when the
   router has found a database, and that database calls the address domestic.
   */
  lemma FirstSelection(geo: (DbId, Ip) -> Verdict, proxyAll: bool, stat: Stat, openOk: bool, t: Tid, ip: Ip)
    returns (acts: seq<Action>, s: State)
    requires NewRouter(proxyAll, stat, openOk).Some? && !IsReserved(ip)
    ensures var start := NewRouter(proxyAll, stat, openOk).value;
            Exec(TableWorld(geo), start, [Call(t, ip)] + acts) == Next(s) && StepsOf(acts, t)
    ensures At(s, t).Selected? && At(s, t).ip == ip
    ensures !At(s, t).r <==> FindsDatabase(proxyAll, stat, openOk) && geo(0, Key(ip)) == Domestic
  {
    ConstructionIff(proxyAll, stat, openOk);
    acts, s := SelectRuns(TableWorld(geo), NewRouter(proxyAll, stat, openOk).value, t, ip);
  }

  // ----- Eviction

  /** An eviction takes the one key, and the next undisturbed selection decides anew. */
  lemma EvictionDecidesAnew(w: World, s: State, t: Tid, ip: Ip) returns (acts: seq<Action>, s': State)
    requires At(s, t).Outside? && Quiet(s)
    ensures Do(w, s, Evict(ip)) == Next(s.(cache := s.cache - {Key(ip)}))
    ensures Exec(w, s.(cache := s.cache - {Key(ip)}), [Call(t, ip)] + acts) == Next(s') && StepsOf(acts, t)
    ensures At(s', t) == Selected(ip, Decide(w, Current(s), ip))
  {
    var evicted := s.(cache := s.cache - {Key(ip)});
    assert s.configs + {Current(evicted)} == s.configs;
    acts, s' := SelectRuns(w, evicted, t, ip);
  }
}
