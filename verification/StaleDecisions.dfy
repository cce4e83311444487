/**
 When a decision of the router (pkg/core/router.go) can be out of date: the cache survives a mode switch, so a
 selection need not be what the present flag and database decide. The exact condition is found over the start of the
 router, the contents of the databases and the number of downloads.
 */
module StaleDecisions {
  import opened Bytes
  import opened Reserved
  import opened RouterProtocol
  import opened RouterRuns
  import opened Updater

  // ----- What the configurations of a run can be

  /** The databases numbered below `n`; some of them calls the address domestic. */
  ghost predicate SomeDomestic(geo: (DbId, Ip) -> Verdict, n: nat, key: Ip) {
    exists db: DbId :: db < n && geo(db, key) == Domestic
  }

  predicate ConfigBelow(c: Config, n: nat) {
    && (c.on ==> c.db.Some?)
    && (c.db.Some? ==> c.db.value < n)
  }

  /** The round under way can still publish a database. */
  predicate MayPublish(pc: UpdaterPc) {
    !(pc.Resting? || pc.OnLock? || pc.OnHeld? || pc.OnWritten?)
  }

  /** Every download publishes at most one database, counted from `base`. */
  predicate CountInv(g: Gate, base: nat) {
    && g.nextDb + (if MayPublish(g.updater) then 1 else 0) <= base + g.rounds
    && (g.db.Some? ==> g.db.value < g.nextDb)
    && (g.rounds == 0 ==> g.updater.Resting?)
  }

  ghost predicate HistoryInv(s: State, base: nat) {
    && CountInv(s.gate, base)
    && (forall c | c in s.configs :: ConfigBelow(c, s.gate.nextDb))
    && (s.gate.rounds == 0 ==> s.configs == {Current(s)})
  }

  lemma CountKeeps(g: Gate, read: bool, a: Action, base: nat)
    requires CountInv(g, base) && DoGate(g, read, a).Some?
    ensures var g' := DoGate(g, read, a).value;
            CountInv(g', base) && g.nextDb <= g'.nextDb && g'.rounds > 0 && g.rounds <= g'.rounds
  {
  }

  lemma HistoryStep(w: World, s: State, a: Action, base: nat)
    requires Inv(w, s) && HistoryInv(s, base) && Do(w, s, a).Next?
    ensures HistoryInv(Do(w, s, a).s, base)
    ensures s.gate.rounds <= Do(w, s, a).s.gate.rounds && s.configs <= Do(w, s, a).s.configs
  {
    StepKeeps(w, s, a);
    if ByUpdater(a) {
      UpdaterFrame(w, s, a);
      CountKeeps(s.gate, s.readers != {}, a, base);
    } else {
      OtherStep(w, s, a);
    }
  }

  /** A router that decides by country: with a database from the start, or without. */
  function Start(stat: Stat): State
    requires !stat.StatFails?
  {
    NewRouter(false, stat, true).value
  }

  lemma StartsWell(w: World, stat: Stat)
    requires FormBlind(w) && !stat.StatFails?
    ensures Inv(w, Start(stat)) && HistoryInv(Start(stat), Start(stat).gate.nextDb)
  {
    NewRouterEstablishes(w, false, stat, true);
  }

  lemma {:induction false} HistoryRun(w: World, s: State, acts: seq<Action>, base: nat)
    requires Inv(w, s) && HistoryInv(s, base) && Exec(w, s, acts).Next?
    ensures Inv(w, Exec(w, s, acts).s) && HistoryInv(Exec(w, s, acts).s, base)
    decreases |acts|
  {
    if acts != [] {
      var acts' := acts[..|acts| - 1];
      HistoryRun(w, s, acts', base);
      HistoryStep(w, Exec(w, s, acts').s, acts[|acts| - 1], base);
      StepKeeps(w, Exec(w, s, acts').s, acts[|acts| - 1]);
    }
  }

  /** What can be decided in two ways after at most `m` downloads of a router that started with `base` databases. */
  ghost predicate TwoWays(w: World, base: nat, m: nat, ip: Ip) {
    m > 0 && !w.reserved(ip) && SomeDomestic(w.geo, base + m, Key(ip))
  }

  lemma NotDomestic(w: World, c: Config, n: nat, ip: Ip)
    requires ConfigBelow(c, n) && (w.reserved(ip) || !SomeDomestic(w.geo, n, Key(ip)))
    ensures Decide(w, c, ip) == !w.reserved(ip)
  {
    if c.on {
      assert w.geo(c.db.value, Key(ip)) == Domestic ==> SomeDomestic(w.geo, n, Key(ip));
    }
  }

  /** Otherwise all configurations of a run decide alike. */
  lemma OneWay(w: World, s: State, base: nat, m: nat, ip: Ip, c: Config, d: Config)
    requires HistoryInv(s, base) && s.gate.rounds <= m && c in s.configs && d in s.configs
    requires !TwoWays(w, base, m, ip)
    ensures Decide(w, c, ip) == Decide(w, d, ip)
  {
    if m > 0 {
      NotDomestic(w, c, base + m, ip);
      NotDomestic(w, d, base + m, ip);
    }
  }

  // ----- On the brink of a change of mind

  /**
   The updater is about to turn a decision around: it has the flag on with a database that calls the address domestic,
   or it has the flag off and is about to publish such a database.
   */
  predicate OnTheBrink(w: World, g: Gate, ip: Ip) {
    && !g.writer && !w.reserved(ip)
    && match g.updater
       case Resting => g.on && Ready(g) && w.geo(g.db.value, Key(ip)) == Domestic
       case Walking => !g.on && w.geo(g.nextDb, Key(ip)) == Domestic
       case _ => false
  }

  /** How many downloads will have begun when the decision has been turned around. */
  function RoundsToFlip(g: Gate): nat {
    if g.updater.Resting? then g.rounds + 1 else g.rounds
  }

  /** On the brink the decision is proxy exactly while the flag is off, and the updater alone turns it around. */
  lemma Flips(w: World, s: State, ip: Ip) returns (acts: seq<Action>, s': State)
    requires OnTheBrink(w, s.gate, ip) && s.readers == {} && Current(s) in s.configs
    ensures Decide(w, Current(s), ip) == !s.gate.on
    ensures Exec(w, s, acts) == Next(s') && UpdaterOnly(acts)
    ensures s' == s.(gate := s'.gate, configs := s'.configs) && Quiet(s')
    ensures s'.gate.on == !s.gate.on && Decide(w, Current(s'), ip) == s.gate.on
    ensures s'.gate.rounds == RoundsToFlip(s.gate)
  {
    if s.gate.updater.Resting? {
      acts := TurnsOff(s.gate);
      s' := UpdaterRuns(w, s, acts, GateRun(s.gate, acts).value);
    } else {
      var g';
      acts, g' := TurnsOn(s.gate);
      s' := UpdaterRuns(w, s, acts, g');
    }
  }

  /** The updater can come to the point of publishing any later database. */
  lemma UpToPublishing(g: Gate, db: DbId) returns (acts: seq<Action>, g': Gate)
    requires g.updater.Resting? && !g.writer && g.nextDb <= db
    ensures GateRun(g, acts) == Some(g') && g'.updater.Walking? && !g'.writer && !g'.on
    ensures g'.nextDb == db && g'.rounds == g.rounds + (db - g.nextDb) + 1
  {
    var rounds, g1 := Updates(g, db - g.nextDb);
    var off := TurnsOff(g1);
    GateAppend(g, rounds, g1, off);
    acts := rounds + off;
    g' := GateRun(g1, off).value;
  }

  /** The updater can bring a router to the brink over any database it starts with or publishes. */
  lemma ToTheBrink(w: World, stat: Stat, m: nat, ip: Ip, db: DbId) returns (acts: seq<Action>, s: State)
    requires !stat.StatFails? && m > 0 && !w.reserved(ip)
    requires db < Start(stat).gate.nextDb + m && w.geo(db, Key(ip)) == Domestic
    ensures Exec(w, Start(stat), acts) == Next(s) && UpdaterOnly(acts)
    ensures s == Start(stat).(gate := s.gate, configs := s.configs) && Quiet(s)
    ensures OnTheBrink(w, s.gate, ip) && RoundsToFlip(s.gate) <= m
    ensures s.gate.on <==> db < Start(stat).gate.nextDb
  {
    var start := Start(stat);
    if db < start.gate.nextDb {
      acts, s := [], start;
    } else {
      var g';
      acts, g' := UpToPublishing(start.gate, db);
      s := UpdaterRuns(w, start, acts, g');
    }
  }

  // ----- The exact condition

  /** The run ends, after at most `m` downloads, with thread `t` holding a result the present does not decide. */
  predicate StaleSelection(w: World, start: State, m: nat, acts: seq<Action>, t: Tid, ip: Ip) {
    match Exec(w, start, acts)
    case Next(s) =>
      && s.gate.rounds <= m && At(s, t).Selected? && At(s, t).ip == ip
      && At(s, t).r != Decide(w, Current(s), ip)
    case _ => false
  }

  /** The run ends, after at most `m` downloads, with a cached value the present does not decide. */
  predicate StaleCache(w: World, start: State, m: nat, acts: seq<Action>, ip: Ip) {
    match Exec(w, start, acts)
    case Next(s) =>
      && s.gate.rounds <= m && Key(ip) in s.cache
      && s.cache[Key(ip)] != Decide(w, Current(s), ip)
    case _ => false
  }

  /**
   A decision outlives the configuration it came from, for every address that is not reserved and every database that
   calls it domestic: if the router started with that database, an address selected for a direct connection stays so
   when the router is switched off; if not, one selected for the proxy stays so when that database is published.
   */
  lemma CacheOutlivesSwitch(geo: (DbId, Ip) -> Verdict, stat: Stat, m: nat, ip: Ip, db: DbId)
    returns (acts: seq<Action>, s: State)
    requires !stat.StatFails? && m > 0 && !IsReserved(ip)
    requires db < Start(stat).gate.nextDb + m && geo(db, Key(ip)) == Domestic
    ensures Exec(TableWorld(geo), Start(stat), acts) == Next(s) && s.gate.rounds <= m
    ensures s.gate.on <==> db >= Start(stat).gate.nextDb
    ensures At(s, 0) == Selected(ip, s.gate.on) && s.cache == map[Key(ip) := s.gate.on]
    ensures Decide(TableWorld(geo), Current(s), ip) == !s.gate.on
  {
    var w, start := TableWorld(geo), Start(stat);
    var before, s1 := ToTheBrink(w, stat, m, ip, db);
    var s2 := Goto(s1, 0, Looking(ip));
    assert s1.configs + {Current(s2)} == s1.configs;
    Extend(w, start, before, s1, Call(0, ip), s2);
    var select, s3 := Selects(w, s2, 0, ip);
    ExecAppend(w, start, before + [Call(0, ip)], s2, select);
    var flip;
    flip, s := Flips(w, s3, ip);
    ExecAppend(w, start, before + [Call(0, ip)] + select, s3, flip);
    acts := before + [Call(0, ip)] + select + flip;
  }

  lemma RunIsOneWay(geo: (DbId, Ip) -> Verdict, stat: Stat, acts: seq<Action>, m: nat, ip: Ip, r: bool)
    requires !stat.StatFails? && !TwoWays(TableWorld(geo), Start(stat).gate.nextDb, m, ip)
    requires Exec(TableWorld(geo), Start(stat), acts).Next?
    ensures var s := Exec(TableWorld(geo), Start(stat), acts).s;
            && Inv(TableWorld(geo), s)
            && (s.gate.rounds <= m && Justified(TableWorld(geo), s.configs, ip, r) ==>
                  r == Decide(TableWorld(geo), Current(s), ip))
  {
    var w, base := TableWorld(geo), Start(stat).gate.nextDb;
    TableIsFormBlind(geo);
    StartsWell(w, stat);
    HistoryRun(w, Start(stat), acts, base);
    var s := Exec(w, Start(stat), acts).s;
    if s.gate.rounds <= m && Justified(w, s.configs, ip, r) {
      var c :| c in s.configs && r == Decide(w, c, ip);
      OneWay(w, s, base, m, ip, c, Current(s));
    }
  }

  lemma NeverStale(geo: (DbId, Ip) -> Verdict, stat: Stat, m: nat, ip: Ip, acts: seq<Action>, t: Tid)
    requires !stat.StatFails? && !TwoWays(TableWorld(geo), Start(stat).gate.nextDb, m, ip)
    ensures !StaleSelection(TableWorld(geo), Start(stat), m, acts, t, ip)
    ensures !StaleCache(TableWorld(geo), Start(stat), m, acts, ip)
  {
    var w := TableWorld(geo);
    if Exec(w, Start(stat), acts).Next? {
      var s := Exec(w, Start(stat), acts).s;
      RunIsOneWay(geo, stat, acts, m, ip, true);
      RunIsOneWay(geo, stat, acts, m, ip, false);
      if At(s, t).Selected? && At(s, t).ip == ip {
        SelectedIsJustified(w, s, t);
      }
      if Key(ip) in s.cache {
        CachedIsJustified(w, s, ip);
      }
    }
  }

  lemma CachedIsJustified(w: World, s: State, ip: Ip)
    requires Inv(w, s) && Key(ip) in s.cache
    ensures Justified(w, s.configs, ip, s.cache[Key(ip)])
  {
    var a := (Key(ip), s.cache[Key(ip)]);
    assert a in s.answers;
    assert Justified(w, s.configs, a.0, a.1);
    var c :| c in s.configs && a.1 == Decide(w, c, a.0);
    DecideByKey(w, c, ip);
  }

  /**
   When a selection, or a cached value, can differ from what the router's present flag and database decide: within `m`
   downloads exactly if there is one at all, the address is not reserved, and some database that the router starts with
   or that one of the `m` downloads publishes calls it domestic. The client begins at most one download.
   */
  lemma StaleIff(geo: (DbId, Ip) -> Verdict, stat: Stat, m: nat, ip: Ip)
    requires !stat.StatFails?
    ensures var w, start := TableWorld(geo), Start(stat);
            var possible := m > 0 && !IsReserved(ip) && SomeDomestic(geo, start.gate.nextDb + m, Key(ip));
            && ((exists acts, t :: StaleSelection(w, start, m, acts, t, ip)) <==> possible)
            && ((exists acts :: StaleCache(w, start, m, acts, ip)) <==> possible)
  {
    var w, start := TableWorld(geo), Start(stat);
    if TwoWays(w, start.gate.nextDb, m, ip) {
      var db: DbId :| db < start.gate.nextDb + m && geo(db, Key(ip)) == Domestic;
      var acts, s := CacheOutlivesSwitch(geo, stat, m, ip, db);
      assert StaleSelection(w, start, m, acts, 0, ip);
      assert StaleCache(w, start, m, acts, ip);
    } else {
      forall acts, t ensures !StaleSelection(w, start, m, acts, t, ip) {
        NeverStale(geo, stat, m, ip, acts, t);
      }
      forall acts ensures !StaleCache(w, start, m, acts, ip) {
        NeverStale(geo, stat, m, ip, acts, 0);
      }
    }
  }
}
