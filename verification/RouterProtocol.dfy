/**
 The router under concurrency (pkg/core/router.go): any number of threads inside `Select`, one updater
 that replaces the country database behind the `on` flag, and cache evictions, interleaved at every lock
 operation. The database pointer is written outside the lock, so its safety rests on the flag alone.
 */
module RouterProtocol {
  import opened Bytes
  import opened Reserved

  type Tid = nat
  type DbId = nat

  datatype Verdict = Domestic | Foreign | LookupError

  /** What looking an address up in an opened database yields, and the reserved test. */
  datatype World = World(geo: (DbId, Ip) -> Verdict, reserved: Ip -> bool)

  /** Where a thread stands in `Select`; from `Reading` to `Answered` it holds the read lock. */
  datatype Pc =
    | Outside
    | Looking(ip: Ip)                // at getCache
    | Missed(ip: Ip)                 // at mutex.RLock
    | Reading(ip: Ip)                // at the reserved test and the test of `on`
    | Tested(ip: Ip)                 // `on` was true; about to load the database pointer
    | InLookup(ip: Ip, db: DbId)     // inside the database lookup
    | Answered(ip: Ip, r: bool)      // about to unlock
    | Storing(ip: Ip, r: bool)       // at setCache
    | Selected(ip: Ip, r: bool)      // Select has its result

  datatype UpdaterPc =
    | Resting
    | OffLock | OffHeld | OffWritten // SwitchOff
    | Fetching                       // network and archive file
    | Walking                        // between archive entries
    | Closing | Creating | Copying   // one database entry
    | Opening                        // about to open the new file and assign the pointer
    | OnLock | OnHeld | OnWritten    // SwitchOn

  datatype Config = Config(on: bool, db: Option<DbId>)

  /**
   The side that the updater writes. `mapped` are the databases whose file is still mapped, `whole` tells that the file
   is complete, `writer` that the write lock is held; `rounds` counts, as history, how many downloads have begun.
   */
  datatype Gate = Gate(
    on: bool,
    db: Option<DbId>,
    mapped: set<DbId>,
    nextDb: DbId,
    whole: bool,
    writer: bool,
    updater: UpdaterPc,
    rounds: nat
  )

  datatype State = State(
    gate: Gate,
    readers: set<Tid>,
    pcs: map<Tid, Pc>,
    cache: map<Ip, bool>,
    configs: set<Config>,            // history: every configuration so far
    answers: set<(Ip, bool)>         // history: every answer getGeoIP has returned, by cache key
  )

  function At(s: State, t: Tid): Pc {
    if t in s.pcs then s.pcs[t] else Outside
  }

  function Goto(s: State, t: Tid, pc: Pc): State {
    s.(pcs := s.pcs[t := pc])
  }

  function Current(s: State): Config {
    Config(s.gate.on, s.gate.db)
  }

  /** The text of an address is one and the same for its 4-octet and its mapped form. */
  function Key(ip: Ip): Ip {
    Short(ip)
  }

  /** What the router decides for an address under a configuration: true means through the proxy. */
  function Decide(w: World, c: Config, ip: Ip): bool {
    !w.reserved(ip) && (c.on ==> c.db.Some? && w.geo(c.db.value, Key(ip)) != Domestic)
  }

  /** What an undisturbed selection answers: the cached value, or the decision. */
  function Selection(w: World, cache: map<Ip, bool>, c: Config, ip: Ip): bool {
    if Key(ip) in cache then cache[Key(ip)] else Decide(w, c, ip)
  }

  /** The reserved test does not depend on the form of the address. */
  ghost predicate FormBlind(w: World) {
    forall ip: Ip :: w.reserved(Key(ip)) == w.reserved(ip)
  }

  lemma KeyOfKey(ip: Ip)
    ensures Key(Key(ip)) == Key(ip)
  {
  }

  lemma DecideByKey(w: World, c: Config, ip: Ip)
    requires FormBlind(w)
    ensures Decide(w, c, Key(ip)) == Decide(w, c, ip)
  {
    KeyOfKey(ip);
  }

  /** The reserved table makes a form-blind test. */
  lemma TableIsFormBlind(geo: (DbId, Ip) -> Verdict)
    ensures FormBlind(World(geo, (ip: Ip) => IsReserved(ip)))
  {
    forall ip: Ip ensures IsReserved(Key(ip)) == IsReserved(ip) {
      assert To4(Short(ip)) == To4(ip) && Short(Short(ip)) == Short(ip);
      var table := Table();
      assert forall i | 0 <= i < |table| :: Contains(table[i], Key(ip)) == Contains(table[i], ip);
    }
  }

  // ----- Construction

  datatype Stat = Exists | Missing | StatFails

  function Fresh(gate: Gate): State {
    State(gate, {}, map[], map[], {Config(gate.on, gate.db)}, {})
  }

  const WITHOUT_DATABASE: Gate := Gate(false, None, {}, 0, false, false, Resting, 0)

  const WITH_DATABASE: Gate := Gate(true, Some(0), {0}, 1, true, false, Resting, 0)

  /** Everything `NewRouter` can return: the proxy-all router, one without a database, one with, or an error. */
  function NewRouter(proxyAll: bool, stat: Stat, openOk: bool): Option<State> {
    if proxyAll || stat.Missing? then Some(Fresh(WITHOUT_DATABASE))
    else if stat.StatFails? || !openOk then None
    else Some(Fresh(WITH_DATABASE))
  }

  // ----- Steps

  datatype Outcome = Blocked | Fault | Next(s: State)

  datatype Action =
    | Call(t: Tid, ip: Ip)
    | Step(t: Tid)
    | Leave(t: Tid)
    | Evict(ip: Ip)
    | Update(ok: bool)   // one step of the updater; `ok` is the outcome where the step can fail
    | Entry              // the archive walk meets a database entry

  predicate ByUpdater(a: Action) {
    a.Update? || a.Entry?
  }

  function DoStep(w: World, s: State, t: Tid): Outcome {
    match At(s, t)
    case Outside => Blocked
    case Looking(ip) =>
      Next(Goto(s, t, if Key(ip) in s.cache then Selected(ip, s.cache[Key(ip)]) else Missed(ip)))
    case Missed(ip) =>
      if s.gate.writer then Blocked else Next(Goto(s, t, Reading(ip)).(readers := s.readers + {t}))
    case Reading(ip) =>
      Next(Goto(s, t, if w.reserved(ip) then Answered(ip, false)
                      else if !s.gate.on then Answered(ip, true)
                      else Tested(ip)))
    case Tested(ip) =>
      if s.gate.db.None? then Fault else Next(Goto(s, t, InLookup(ip, s.gate.db.value)))
    case InLookup(ip, db) =>
      if db !in s.gate.mapped || !s.gate.whole then Fault
      else Next(Goto(s, t, Answered(ip, w.geo(db, Key(ip)) != Domestic)))
    case Answered(ip, r) =>
      Next(Goto(s, t, Storing(ip, r)).(readers := s.readers - {t}, answers := s.answers + {(Key(ip), r)}))
    case Storing(ip, r) =>
      Next(Goto(s, t, Selected(ip, r)).(cache := s.cache[Key(ip) := r]))
    case Selected(_, _) => Blocked
  }

  /** One step of the updater; `read` tells whether a reader holds the lock. */
  function GateStep(g: Gate, read: bool, ok: bool): Option<Gate> {
    match g.updater
    case Resting => Some(g.(updater := OffLock, rounds := g.rounds + 1))
    case OffLock => if g.writer || read then None else Some(g.(writer := true, updater := OffHeld))
    case OffHeld => Some(g.(on := false, updater := OffWritten))
    case OffWritten => Some(g.(writer := false, updater := Fetching))
    case Fetching => Some(g.(updater := if ok then Walking else Resting))
    case Walking => Some(g.(updater := if ok then Opening else Resting))
    case Closing =>
      // A failed close is logged and ignored.
      Some(g.(mapped := if ok && g.db.Some? then g.mapped - {g.db.value} else g.mapped, updater := Creating))
    case Creating => Some(if ok then g.(whole := false, updater := Copying) else g.(updater := Resting))
    case Copying => Some(if ok then g.(whole := true, updater := Walking) else g.(updater := Resting))
    case Opening =>
      if !ok then Some(g.(db := None, updater := Resting))
      else if !g.whole then None
      else Some(g.(db := Some(g.nextDb), mapped := g.mapped + {g.nextDb}, nextDb := g.nextDb + 1, updater := OnLock))
    case OnLock => if g.writer || read then None else Some(g.(writer := true, updater := OnHeld))
    case OnHeld => Some(g.(on := true, updater := OnWritten))
    case OnWritten => Some(g.(writer := false, updater := Resting))
  }

  /** The archive walk comes to a database entry. */
  function MeetEntry(g: Gate): Option<Gate> {
    if g.updater.Walking? then Some(g.(updater := if g.db.Some? then Closing else Creating)) else None
  }

  function DoGate(g: Gate, read: bool, a: Action): Option<Gate> {
    match a
    case Update(ok) => GateStep(g, read, ok)
    case Entry => MeetEntry(g)
    case _ => None
  }

  function DoUpdater(s: State, a: Action): Outcome {
    match DoGate(s.gate, s.readers != {}, a)
    case Some(g) => Next(s.(gate := g))
    case None => Blocked
  }

  function Raw(w: World, s: State, a: Action): Outcome {
    match a
    case Call(t, ip) => if At(s, t).Outside? then Next(Goto(s, t, Looking(ip))) else Blocked
    case Step(t) => DoStep(w, s, t)
    case Leave(t) => if At(s, t).Selected? then Next(Goto(s, t, Outside)) else Blocked
    case Evict(ip) => Next(s.(cache := s.cache - {Key(ip)}))
    case Update(_) => DoUpdater(s, a)
    case Entry => DoUpdater(s, a)
  }

  /** A step, with the configuration it leads to recorded. */
  function Do(w: World, s: State, a: Action): Outcome {
    match Raw(w, s, a)
    case Next(s') => Next(s'.(configs := s.configs + {Current(s')}))
    case o => o
  }

  function Exec(w: World, s: State, acts: seq<Action>): Outcome {
    if acts == [] then Next(s)
    else
      match Exec(w, s, acts[..|acts| - 1])
      case Next(s') => Do(w, s', acts[|acts| - 1])
      case o => o
  }

  // ----- The gate

  predicate HoldsRead(pc: Pc) {
    pc.Reading? || pc.Tested? || pc.InLookup? || pc.Answered?
  }

  predicate HoldsWrite(pc: UpdaterPc) {
    pc.OffHeld? || pc.OffWritten? || pc.OnHeld? || pc.OnWritten?
  }

  /** From the moment the flag has been cleared until it is set again. */
  predicate InWindow(pc: UpdaterPc) {
    !(pc.Resting? || pc.OffLock? || pc.OffHeld? || pc.OnWritten?)
  }

  /** The pointer leads to an open database whose file is complete. */
  predicate Ready(g: Gate) {
    g.db.Some? && g.db.value in g.mapped && g.whole
  }

  ghost predicate LocksInv(s: State) {
    && (forall t: Tid :: HoldsRead(At(s, t)) <==> t in s.readers)
    && (s.gate.writer <==> HoldsWrite(s.gate.updater))
    && (s.gate.writer ==> s.readers == {})
  }

  predicate WindowInv(g: Gate) {
    && (InWindow(g.updater) ==> !g.on)
    && (g.on ==> Ready(g))
    && (g.updater.OnLock? || g.updater.OnHeld? ==> Ready(g))
  }

  ghost predicate GateInv(s: State) {
    && WindowInv(s.gate)
    && (forall t: Tid :: At(s, t).Tested? ==> s.gate.on)
    && (forall t: Tid :: At(s, t).InLookup? ==> s.gate.on && s.gate.db == Some(At(s, t).db))
  }

  /** An answer on its way out is the decision of the configuration that still holds. */
  ghost predicate AnswerInv(w: World, s: State) {
    && (forall t: Tid :: At(s, t).Tested? || At(s, t).InLookup? ==> !w.reserved(At(s, t).ip))
    && (forall t: Tid :: At(s, t).Answered? ==> At(s, t).r == Decide(w, Current(s), At(s, t).ip))
  }

  /** Some configuration among these decides `r` for the address. */
  ghost predicate Justified(w: World, configs: set<Config>, k: Ip, r: bool) {
    exists c :: c in configs && r == Decide(w, c, k)
  }

  ghost predicate AllJustified(w: World, configs: set<Config>, answers: set<(Ip, bool)>) {
    forall a :: a in answers ==> Justified(w, configs, a.0, a.1)
  }

  predicate CacheFromAnswers(cache: map<Ip, bool>, answers: set<(Ip, bool)>) {
    forall k :: k in cache ==> (k, cache[k]) in answers
  }

  predicate ResultFromAnswers(pc: Pc, answers: set<(Ip, bool)>) {
    pc.Storing? || pc.Selected? ==> (Key(pc.ip), pc.r) in answers
  }

  ghost predicate CacheInv(w: World, s: State) {
    && FormBlind(w)
    && Current(s) in s.configs
    && AllJustified(w, s.configs, s.answers)
    && CacheFromAnswers(s.cache, s.answers)
    && (forall t: Tid :: ResultFromAnswers(At(s, t), s.answers))
  }

  ghost predicate Inv(w: World, s: State) {
    LocksInv(s) && GateInv(s) && AnswerInv(w, s) && CacheInv(w, s)
  }

  /** Every router that construction can return satisfies the invariant. */
  lemma NewRouterEstablishes(w: World, proxyAll: bool, stat: Stat, openOk: bool)
    requires FormBlind(w) && NewRouter(proxyAll, stat, openOk).Some?
    ensures Inv(w, NewRouter(proxyAll, stat, openOk).value)
  {
  }

  /** What a step of the updater does to the gate: the window is kept, and readers keep the flag and pointer still. */
  lemma GateKeeps(g: Gate, read: bool, a: Action)
    requires WindowInv(g) && (g.writer <==> HoldsWrite(g.updater)) && (g.writer ==> !read)
    requires DoGate(g, read, a).Some?
    ensures var g' := DoGate(g, read, a).value;
            && WindowInv(g') && (g'.writer <==> HoldsWrite(g'.updater)) && (g'.writer ==> !read)
            && (read && g.on ==> g'.on && g'.db == g.db)
            && (read ==> g'.on == g.on)
  {
  }

  lemma ThreadLocks(w: World, s: State, t: Tid)
    requires LocksInv(s) && DoStep(w, s, t).Next?
    ensures LocksInv(DoStep(w, s, t).s)
  {
    var s' := DoStep(w, s, t).s;
    assert forall u: Tid | u != t :: At(s', u) == At(s, u);
  }

  lemma ThreadGate(w: World, s: State, t: Tid)
    requires LocksInv(s) && GateInv(s) && DoStep(w, s, t).Next?
    ensures GateInv(DoStep(w, s, t).s)
  {
    var s' := DoStep(w, s, t).s;
    assert forall u: Tid | u != t :: At(s', u) == At(s, u);
  }

  lemma ThreadAnswer(w: World, s: State, t: Tid)
    requires LocksInv(s) && GateInv(s) && AnswerInv(w, s) && DoStep(w, s, t).Next?
    ensures AnswerInv(w, DoStep(w, s, t).s)
  {
    var s' := DoStep(w, s, t).s;
    assert forall u: Tid | u != t :: At(s', u) == At(s, u);
  }

  /** The updater leaves the threads and the cache alone. */
  lemma UpdaterFrame(w: World, s: State, a: Action)
    requires ByUpdater(a) && Do(w, s, a).Next?
    ensures DoGate(s.gate, s.readers != {}, a).Some?
    ensures var g := DoGate(s.gate, s.readers != {}, a).value;
            Do(w, s, a).s == s.(gate := g, configs := s.configs + {Config(g.on, g.db)})
  {
  }

  lemma UpdaterGate(w: World, s: State, a: Action)
    requires LocksInv(s) && GateInv(s) && ByUpdater(a) && Do(w, s, a).Next?
    ensures LocksInv(Do(w, s, a).s) && GateInv(Do(w, s, a).s)
  {
    UpdaterFrame(w, s, a);
    GateKeeps(s.gate, s.readers != {}, a);
    var s' := Do(w, s, a).s;
    assert forall t: Tid :: At(s', t) == At(s, t) && (HoldsRead(At(s, t)) <==> t in s.readers);
  }

  lemma UpdaterAnswer(w: World, s: State, a: Action)
    requires LocksInv(s) && GateInv(s) && AnswerInv(w, s) && ByUpdater(a) && Do(w, s, a).Next?
    ensures AnswerInv(w, Do(w, s, a).s)
  {
    UpdaterFrame(w, s, a);
    GateKeeps(s.gate, s.readers != {}, a);
    var s' := Do(w, s, a).s;
    assert forall t: Tid :: At(s', t) == At(s, t) && (HoldsRead(At(s, t)) <==> t in s.readers);
  }

  /** A returned answer is justified by the configuration under which it was computed. */
  lemma ReturnedIsJustified(w: World, s: State, t: Tid)
    requires AnswerInv(w, s) && CacheInv(w, s) && At(s, t).Answered?
    ensures Justified(w, s.configs, Key(At(s, t).ip), At(s, t).r)
  {
    DecideByKey(w, Current(s), At(s, t).ip);
  }

  lemma ThreadJustified(w: World, s: State, t: Tid)
    requires AnswerInv(w, s) && CacheInv(w, s) && DoStep(w, s, t).Next?
    ensures var s' := DoStep(w, s, t).s;
            Current(s') in s'.configs && AllJustified(w, s'.configs, s'.answers)
  {
    if At(s, t).Answered? {
      ReturnedIsJustified(w, s, t);
    }
  }

  lemma ThreadStores(w: World, s: State, t: Tid)
    requires CacheInv(w, s) && DoStep(w, s, t).Next?
    ensures CacheFromAnswers(DoStep(w, s, t).s.cache, DoStep(w, s, t).s.answers)
  {
    assert ResultFromAnswers(At(s, t), s.answers);
  }

  lemma AnswersGrow(w: World, s: State, t: Tid)
    requires DoStep(w, s, t).Next?
    ensures s.answers <= DoStep(w, s, t).s.answers
    ensures forall u: Tid | u != t :: At(DoStep(w, s, t).s, u) == At(s, u)
  {
  }

  /** A thread inside `Select` stays inside it, with its address. */
  lemma StepKeepsAddress(w: World, s: State, t: Tid)
    requires DoStep(w, s, t).Next?
    ensures var pc' := At(DoStep(w, s, t).s, t);
            !At(s, t).Outside? && !pc'.Outside? && pc'.ip == At(s, t).ip
  {
  }

  lemma ThreadResult(w: World, s: State, t: Tid)
    requires CacheInv(w, s) && DoStep(w, s, t).Next?
    ensures ResultFromAnswers(At(DoStep(w, s, t).s, t), DoStep(w, s, t).s.answers)
  {
    assert ResultFromAnswers(At(s, t), s.answers);
    match At(s, t)
    case Looking(ip) =>
    case Answered(ip, r) =>
      assert (Key(ip), r) in DoStep(w, s, t).s.answers;
    case _ =>
  }

  lemma MoreConfigs(w: World, configs: set<Config>, c: Config, answers: set<(Ip, bool)>)
    requires AllJustified(w, configs, answers)
    ensures AllJustified(w, configs + {c}, answers)
  {
    forall a | a in answers ensures Justified(w, configs + {c}, a.0, a.1) {
      assert Justified(w, configs, a.0, a.1);
      var d :| d in configs && a.1 == Decide(w, d, a.0);
      assert d in configs + {c};
    }
  }

  lemma SameConfig(w: World, s: State)
    requires Inv(w, s)
    ensures s.(configs := s.configs + {Current(s)}) == s
  {
    assert s.configs + {Current(s)} == s.configs;
  }

  /** Steps that touch neither the flag, the pointer nor a lock. */
  lemma OutsideSteps(w: World, s: State, a: Action)
    requires Inv(w, s) && Raw(w, s, a).Next? && (a.Call? || a.Leave? || a.Evict?)
    ensures Inv(w, Raw(w, s, a).s) && Current(Raw(w, s, a).s) == Current(s)
  {
    var s' := Raw(w, s, a).s;
    if a.Call? || a.Leave? {
      assert forall u: Tid | u != a.t :: At(s', u) == At(s, u);
      assert !HoldsRead(At(s, a.t)) && !HoldsRead(At(s', a.t));
    } else {
      assert forall u: Tid :: At(s', u) == At(s, u);
    }
  }

  /** No step faults: no lookup on a missing pointer, on a closed database, or on a file being replaced. */
  lemma NeverFaults(w: World, s: State, a: Action)
    requires GateInv(s)
    ensures !Do(w, s, a).Fault?
  {
    if a.Step? {
      assert At(s, a.t).InLookup? ==> s.gate.on && s.gate.db == Some(At(s, a.t).db);
    }
  }

  lemma ThreadKeeps(w: World, s: State, t: Tid)
    requires Inv(w, s) && Do(w, s, Step(t)).Next?
    ensures Inv(w, Do(w, s, Step(t)).s)
  {
    ThreadLocks(w, s, t);
    ThreadGate(w, s, t);
    ThreadAnswer(w, s, t);
    ThreadJustified(w, s, t);
    ThreadStores(w, s, t);
    forall u: Tid ensures ResultFromAnswers(At(DoStep(w, s, t).s, u), DoStep(w, s, t).s.answers) {
      ThreadResult(w, s, t);
      AnswersGrow(w, s, t);
      assert ResultFromAnswers(At(s, u), s.answers);
    }
    SameConfig(w, DoStep(w, s, t).s);
    assert DoStep(w, s, t).s.configs == s.configs;
  }

  lemma UpdaterCache(w: World, s: State, a: Action)
    requires CacheInv(w, s) && ByUpdater(a) && Do(w, s, a).Next?
    ensures CacheInv(w, Do(w, s, a).s)
  {
    UpdaterFrame(w, s, a);
    var s' := Do(w, s, a).s;
    MoreConfigs(w, s.configs, Current(s'), s.answers);
    forall t: Tid ensures ResultFromAnswers(At(s', t), s'.answers) {
      assert ResultFromAnswers(At(s, t), s.answers);
    }
  }

  lemma UpdaterKeeps(w: World, s: State, a: Action)
    requires Inv(w, s) && ByUpdater(a) && Do(w, s, a).Next?
    ensures Inv(w, Do(w, s, a).s)
  {
    UpdaterGate(w, s, a);
    UpdaterAnswer(w, s, a);
    UpdaterCache(w, s, a);
  }

  lemma StepKeeps(w: World, s: State, a: Action)
    requires Inv(w, s) && Do(w, s, a).Next?
    ensures Inv(w, Do(w, s, a).s)
  {
    if ByUpdater(a) {
      UpdaterKeeps(w, s, a);
    } else if a.Step? {
      ThreadKeeps(w, s, a.t);
    } else {
      OutsideSteps(w, s, a);
      SameConfig(w, Raw(w, s, a).s);
    }
  }

  /** The gate, over whole runs: from any constructed router, in every interleaving, nothing faults. */
  lemma {:induction false} RunKeeps(w: World, s: State, acts: seq<Action>)
    requires Inv(w, s)
    ensures !Exec(w, s, acts).Fault?
    ensures Exec(w, s, acts).Next? ==> Inv(w, Exec(w, s, acts).s)
    decreases |acts|
  {
    if acts != [] {
      var acts' := acts[..|acts| - 1];
      RunKeeps(w, s, acts');
      if Exec(w, s, acts').Next? {
        var mid, a := Exec(w, s, acts').s, acts[|acts| - 1];
        NeverFaults(w, mid, a);
        if Do(w, mid, a).Next? {
          StepKeeps(w, mid, a);
        }
      }
    }
  }

  // ----- What holds in every run of a constructed router

  /** The real reserved table with any database contents. */
  function TableWorld(geo: (DbId, Ip) -> Verdict): World {
    World(geo, (ip: Ip) => IsReserved(ip))
  }

  /** `s` is reached from a router that construction returned. */
  predicate Reached(w: World, start: State, acts: seq<Action>, s: State) {
    && (start == Fresh(WITHOUT_DATABASE) || start == Fresh(WITH_DATABASE))
    && Exec(w, start, acts) == Next(s)
  }

  lemma ReachedInv(geo: (DbId, Ip) -> Verdict, start: State, acts: seq<Action>, s: State)
    requires Reached(TableWorld(geo), start, acts, s)
    ensures Inv(TableWorld(geo), s)
  {
    TableIsFormBlind(geo);
    NewRouterEstablishes(TableWorld(geo), true, Exists, true);
    NewRouterEstablishes(TableWorld(geo), false, Missing, true);
    NewRouterEstablishes(TableWorld(geo), false, Exists, true);
    RunKeeps(TableWorld(geo), start, acts);
  }

  /**
   The database gate: whatever construction returned and however threads and updater interleave, no run faults, and a
   thread inside a lookup uses the very database the pointer leads to, open and complete, while no writer holds the
   lock.
   */
  lemma DatabaseGate(geo: (DbId, Ip) -> Verdict, proxyAll: bool, stat: Stat, openOk: bool, acts: seq<Action>)
    requires NewRouter(proxyAll, stat, openOk).Some?
    ensures var o := Exec(TableWorld(geo), NewRouter(proxyAll, stat, openOk).value, acts);
            && !o.Fault?
            && (o.Next? ==> forall t: Tid | At(o.s, t).InLookup? ::
                  var g, db := o.s.gate, At(o.s, t).db;
                  g.on && !g.writer && g.db == Some(db) && db in g.mapped && g.whole)
  {
    TableIsFormBlind(geo);
    NewRouterEstablishes(TableWorld(geo), proxyAll, stat, openOk);
    RunKeeps(TableWorld(geo), NewRouter(proxyAll, stat, openOk).value, acts);
  }

  /** The result of a selection is the decision of some configuration since construction. */
  lemma SelectedIsJustified(w: World, s: State, t: Tid)
    requires Inv(w, s) && At(s, t).Selected?
    ensures Justified(w, s.configs, At(s, t).ip, At(s, t).r)
  {
    var pc := At(s, t);
    assert ResultFromAnswers(pc, s.answers);
    assert Justified(w, s.configs, (Key(pc.ip), pc.r).0, (Key(pc.ip), pc.r).1);
    var c :| c in s.configs && pc.r == Decide(w, c, Key(pc.ip));
    DecideByKey(w, c, pc.ip);
  }

  /**
   Cache justification: a cached value, like a selected one, is an answer that getGeoIP has returned for the address in
   either form, and the decision of some configuration the router has been in.
   */
  lemma CacheJustified(geo: (DbId, Ip) -> Verdict, start: State, acts: seq<Action>, s: State)
    requires Reached(TableWorld(geo), start, acts, s)
    ensures forall k :: k in s.cache ==>
              (k, s.cache[k]) in s.answers && Justified(TableWorld(geo), s.configs, k, s.cache[k])
    ensures forall t: Tid | At(s, t).Selected? ::
              var (ip, r) := (At(s, t).ip, At(s, t).r);
              (Key(ip), r) in s.answers && Justified(TableWorld(geo), s.configs, ip, r)
  {
    ReachedInv(geo, start, acts, s);
    forall k | k in s.cache ensures Justified(TableWorld(geo), s.configs, k, s.cache[k]) {
      assert (k, s.cache[k]) in s.answers;
    }
    forall t: Tid | At(s, t).Selected?
      ensures (Key(At(s, t).ip), At(s, t).r) in s.answers
      ensures Justified(TableWorld(geo), s.configs, At(s, t).ip, At(s, t).r)
    {
      assert ResultFromAnswers(At(s, t), s.answers);
      SelectedIsJustified(TableWorld(geo), s, t);
    }
  }

  /** A reserved address is never sent through the proxy, in any reachable state. */
  lemma ReservedNeverProxied(geo: (DbId, Ip) -> Verdict, start: State, acts: seq<Action>, s: State, t: Tid)
    requires Reached(TableWorld(geo), start, acts, s)
    requires At(s, t).Selected? && IsReserved(At(s, t).ip)
    ensures !At(s, t).r
  {
    ReachedInv(geo, start, acts, s);
    SelectedIsJustified(TableWorld(geo), s, t);
  }

  /** While the flag and the database have not changed, every selection is what getGeoIP decides. */
  lemma StableSelect(w: World, s: State, t: Tid)
    requires Inv(w, s) && s.configs == {Current(s)} && At(s, t).Selected?
    ensures At(s, t).r == Decide(w, Current(s), At(s, t).ip)
  {
    SelectedIsJustified(w, s, t);
  }

  lemma OtherStep(w: World, s: State, a: Action)
    requires Do(w, s, a).Next? && !ByUpdater(a)
    ensures Do(w, s, a).s.gate == s.gate && Do(w, s, a).s.configs == s.configs + {Current(s)}
  {
  }

  /** Without the updater the configuration never changes; the proxy-all router has none. */
  lemma {:induction false} NoUpdaterNoChange(w: World, s: State, acts: seq<Action>)
    requires s.configs == {Current(s)} && Exec(w, s, acts).Next?
    requires forall a | a in acts :: !ByUpdater(a)
    ensures Exec(w, s, acts).s.configs == {Current(s)} && Current(Exec(w, s, acts).s) == Current(s)
    decreases |acts|
  {
    if acts != [] {
      var acts' := acts[..|acts| - 1];
      NoUpdaterNoChange(w, s, acts');
      OtherStep(w, Exec(w, s, acts').s, acts[|acts| - 1]);
    }
  }
}
