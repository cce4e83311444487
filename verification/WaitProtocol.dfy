/**
 The concurrent limiter (pkg/core/ratelimiter.go) and the relay goroutines that draw on it
 (pkg/core/server.go), as a machine whose steps are the lock and wait-group operations. One ticker and
 any number of callers interleave in any order. The limiter is shown to be the atomic bucket of
 `TokenBucket`.
 */
module WaitProtocol {
  import opened Bytes
  import opened TokenBucket

  type Tid = nat

  /** Where a caller stands; `n` is its request. From `Entered` to `Returned` it holds `mutexWait`. */
  datatype Pc =
    | Idle
    | Sized(readLen: U64)   // the relay loop is about to make a buffer of this size
    | Buffered(readLen: U64) // it has the buffer, and reads the remote socket
    | Calling(n: U64)       // at mutexWait.Lock
    | Entered(n: U64)       // at the capacity test
    | Refused(n: U64)       // about to return the error
    | Fits(n: U64)          // at mutexWriteWait.Lock
    | Writing(n: U64)       // holds mutexWriteWait, about to set waiting
    | Written(n: U64)       // about to call done.Add
    | Added(n: U64)         // about to unlock mutexWriteWait
    | Registered(n: U64)    // at done.Wait
    | Asleep(n: U64)        // inside done.Wait, on its semaphore
    | Returned(n: U64)      // done.Wait has returned

  /** Where the ticker stands; `before` is what the bucket held when the tick began. */
  datatype TickerPc =
    | Resting
    | Locked                // holds mutex
    | Filled(before: U64)   // tokens saturated, at mutexWriteWait.Lock
    | Deciding(before: U64) // holds mutexWriteWait too
    | MustDone(n: U64)      // has handed n tokens out, about to call done.Done
    | Leaving               // about to unlock mutexWriteWait
    | Unlocking             // about to unlock mutex

  datatype Holder = Nobody | Ticker | Caller(t: Tid)

  /** `counter` and `asleep` are the wait group: its count, and the threads that sleep on it. */
  datatype State = State(
    bandwidth: U64,
    tokens: U64,
    waiting: U64,
    counter: nat,
    asleep: set<Tid>,
    mutex: Holder,
    mutexWait: Holder,
    mutexWriteWait: Holder,
    ticker: TickerPc,
    pcs: map<Tid, Pc>,
    returned: nat           // history: the sum of the requests that have returned without error
  )

  function At(s: State, t: Tid): Pc {
    if t in s.pcs then s.pcs[t] else Idle
  }

  function Goto(s: State, t: Tid, pc: Pc): State {
    s.(pcs := s.pcs[t := pc])
  }

  function Init(bandwidth: U64): State {
    State(bandwidth, 0, 0, 0, {}, Nobody, Nobody, Nobody, Resting, map[], 0)
  }

  datatype Action =
    | TickerStep
    | ReadAvailable(t: Tid)
    | MakeBuffer(t: Tid)
    | SocketRead(t: Tid, n: U64)
    | SocketFails(t: Tid)
    | Request(t: Tid, n: U64)
    | Proceed(t: Tid)

  /** A step is blocked, or a panic of the wait group, or a panic for want of addresses for a buffer, or a new state. */
  datatype Outcome = Blocked | Panic | TooLong | Next(s: State)

  /** The longest buffer that can be made: addresses have 48 bits. */
  const MAX_ALLOC: U64 := 0x1_0000_0000_0000

  // ----- Steps

  function DoTicker(s: State): Outcome {
    match s.ticker
    case Resting =>
      if s.mutex == Nobody then Next(s.(mutex := Ticker, ticker := Locked)) else Blocked
    case Locked =>
      Next(s.(tokens := Saturate(s.tokens, s.bandwidth, Capacity(s.bandwidth)), ticker := Filled(s.tokens)))
    case Filled(before) =>
      if s.mutexWriteWait == Nobody then Next(s.(mutexWriteWait := Ticker, ticker := Deciding(before))) else Blocked
    case Deciding(before) =>
      if s.waiting != 0 && s.tokens >= s.waiting
      then
        Next(s.(tokens := if s.tokens > s.waiting then s.tokens - s.waiting else 0, waiting := 0,
                ticker := MustDone(s.waiting)))
      else Next(s.(ticker := Leaving))
    case MustDone(_) =>
      if s.counter == 0 then Panic
      else Next(s.(counter := s.counter - 1, asleep := if s.counter == 1 then {} else s.asleep, ticker := Leaving))
    case Leaving =>
      Next(s.(mutexWriteWait := Nobody, ticker := Unlocking))
    case Unlocking =>
      Next(s.(mutex := Nobody, ticker := Resting))
  }

  function DoProceed(s: State, t: Tid): Outcome {
    match At(s, t)
    case Idle => Blocked
    case Sized(_) => Blocked
    case Buffered(_) => Blocked
    case Calling(n) =>
      if s.mutexWait == Nobody then Next(Goto(s, t, Entered(n)).(mutexWait := Caller(t))) else Blocked
    case Entered(n) =>
      Next(Goto(s, t, if n > Capacity(s.bandwidth) then Refused(n) else Fits(n)))
    case Refused(_) =>
      Next(Goto(s, t, Idle).(mutexWait := Nobody))
    case Fits(n) =>
      if s.mutexWriteWait == Nobody then Next(Goto(s, t, Writing(n)).(mutexWriteWait := Caller(t))) else Blocked
    case Writing(n) =>
      Next(Goto(s, t, Written(n)).(waiting := n))
    case Written(n) =>
      if s.counter == 0 && s.asleep != {} then Panic
      else Next(Goto(s, t, Added(n)).(counter := s.counter + 1))
    case Added(n) =>
      Next(Goto(s, t, Registered(n)).(mutexWriteWait := Nobody))
    case Registered(n) =>
      if s.counter == 0 then Next(Goto(s, t, Returned(n)))
      else Next(Goto(s, t, Asleep(n)).(asleep := s.asleep + {t}))
    case Asleep(n) =>
      if t in s.asleep then Blocked
      else if s.counter != 0 || s.asleep != {} then Panic
      else Next(Goto(s, t, Returned(n)))
    case Returned(n) =>
      Next(Goto(s, t, Idle).(mutexWait := Nobody, returned := s.returned + n))
  }

  function Do(s: State, a: Action): Outcome {
    match a
    case TickerStep => DoTicker(s)
    case Proceed(t) => DoProceed(s, t)
    case ReadAvailable(t) =>
      // Available, then the replacement of an empty bucket's answer by the bandwidth.
      if At(s, t).Idle? then Next(Goto(s, t, Sized(if s.tokens == 0 then s.bandwidth else s.tokens))) else Blocked
    case MakeBuffer(t) =>
      if !At(s, t).Sized? then Blocked
      else if At(s, t).readLen > MAX_ALLOC then TooLong
      else Next(Goto(s, t, Buffered(At(s, t).readLen)))
    case SocketRead(t, n) =>
      // A read into a buffer delivers some octets of it; into an empty buffer, none.
      if At(s, t).Buffered? && n <= At(s, t).readLen && (n == 0 <==> At(s, t).readLen == 0)
      then Next(Goto(s, t, Calling(n))) else Blocked
    case SocketFails(t) =>
      if At(s, t).Buffered? then Next(Goto(s, t, Idle)) else Blocked
    case Request(t, n) =>
      if At(s, t).Idle? then Next(Goto(s, t, Calling(n))) else Blocked
  }

  function Exec(s: State, acts: seq<Action>): Outcome {
    if acts == [] then Next(s)
    else
      match Exec(s, acts[..|acts| - 1])
      case Next(s') => Do(s', acts[|acts| - 1])
      case o => o
  }

  // ----- The invariant

  predicate HoldsWait(pc: Pc) {
    !(pc.Idle? || pc.Sized? || pc.Buffered? || pc.Calling?)
  }

  predicate HoldsWrite(pc: Pc) {
    pc.Writing? || pc.Written? || pc.Added?
  }

  predicate TickerHoldsWrite(pc: TickerPc) {
    pc.Deciding? || pc.MustDone? || pc.Leaving?
  }

  ghost predicate WaitLockInv(s: State) {
    && (forall t: Tid :: HoldsWait(At(s, t)) <==> s.mutexWait == Caller(t))
    && s.mutexWait != Ticker
  }

  ghost predicate WriteLockInv(s: State) {
    && (forall t: Tid :: HoldsWrite(At(s, t)) <==> s.mutexWriteWait == Caller(t))
    && (TickerHoldsWrite(s.ticker) <==> s.mutexWriteWait == Ticker)
  }

  ghost predicate LocksInv(s: State) {
    && WaitLockInv(s) && WriteLockInv(s)
    && s.mutex == (if s.ticker.Resting? then Nobody else Ticker)
  }

  predicate Quiet(s: State) {
    s.counter == 0 && s.waiting == 0 && s.asleep == {}
  }

  /** A registered request: still pending, being handed out, or handed out. */
  predicate RequestPhase(s: State, n: U64) {
    || (s.counter == 1 && s.waiting == n && !s.ticker.MustDone?)
    || (s.counter == 1 && s.waiting == 0 && s.ticker == MustDone(n) && n > 0)
    || (s.counter == 0 && s.waiting == 0 && !s.ticker.MustDone? && n > 0)
  }

  /** The wait group and `waiting`, as the holder of `mutexWait` determines them. */
  predicate PhaseInv(s: State) {
    match s.mutexWait
    case Nobody => Quiet(s) && !s.ticker.MustDone?
    case Ticker => false
    case Caller(t) =>
      match At(s, t)
      case Written(n) => s.counter == 0 && s.waiting == n && s.asleep == {} && !s.ticker.MustDone?
      case Added(n) => s.counter == 1 && s.waiting == n && s.asleep == {} && !s.ticker.MustDone?
      case Registered(n) => RequestPhase(s, n) && s.asleep == {}
      case Asleep(n) => RequestPhase(s, n) && s.asleep == (if s.counter == 1 then {t} else {})
      case _ => Quiet(s) && !s.ticker.MustDone?
  }

  predicate PcBound(pc: Pc, capacity: U64) {
    match pc
    case Idle => true
    case Sized(_) => true
    case Buffered(_) => true
    case Calling(_) => true
    case Entered(_) => true
    case Refused(n) => n > capacity
    case _ => pc.n <= capacity
  }

  ghost predicate BoundsInv(s: State) {
    && s.tokens <= Capacity(s.bandwidth)
    && (forall t: Tid :: PcBound(At(s, t), Capacity(s.bandwidth)))
    && (s.ticker.Filled? || s.ticker.Deciding? ==>
          s.ticker.before <= Capacity(s.bandwidth)
          && s.tokens == Saturate(s.ticker.before, s.bandwidth, Capacity(s.bandwidth)))
  }

  ghost predicate Inv(s: State) {
    LocksInv(s) && PhaseInv(s) && BoundsInv(s)
  }

  lemma InitInv(bandwidth: U64)
    ensures Inv(Init(bandwidth))
  {
  }

  // ----- The refinement map

  /** The atomic bucket this state stands for. A tick happens when the ticker decides, a registration at `done.Add`. */
  function Abs(s: State): Bucket {
    Bucket(if s.ticker.Filled? || s.ticker.Deciding? then s.ticker.before else s.tokens,
           if s.counter == 0 || s.ticker.MustDone? then None else Some(s.waiting))
  }

  /** What has been granted to the holder of `mutexWait` but not yet returned by it. */
  function Credit(s: State): nat {
    if !s.mutexWait.Caller? then 0
    else match At(s, s.mutexWait.t)
      case Registered(n) => if Abs(s).pending.None? then n else 0
      case Asleep(n) => if Abs(s).pending.None? then n else 0
      case Returned(n) => n
      case _ => 0
  }

  function Label(s: State, a: Action): Option<Event> {
    if a.TickerStep? && s.ticker.Deciding? then Some(TickEvent)
    else if a.Proceed? && At(s, a.t).Written? then Some(RegisterEvent(At(s, a.t).n))
    else None
  }

  lemma TickerLocks(s: State)
    requires LocksInv(s) && DoTicker(s).Next?
    ensures LocksInv(DoTicker(s).s)
  {
    var s' := DoTicker(s).s;
    assert forall t: Tid :: At(s', t) == At(s, t);
  }

  lemma TickerPhase(s: State)
    requires Inv(s) && DoTicker(s).Next?
    ensures PhaseInv(DoTicker(s).s)
  {
    var s' := DoTicker(s).s;
    if s.mutexWait.Caller? {
      var t := s.mutexWait.t;
      assert At(s', t) == At(s, t) && (HoldsWrite(At(s, t)) <==> s.mutexWriteWait == Caller(t));
    }
  }

  lemma TickerBounds(s: State)
    requires Inv(s) && DoTicker(s).Next?
    ensures BoundsInv(DoTicker(s).s)
  {
    var s' := DoTicker(s).s;
    assert forall t: Tid :: At(s', t) == At(s, t);
  }

  lemma ProceedWaitLock(s: State, t: Tid)
    requires WaitLockInv(s) && DoProceed(s, t).Next?
    ensures WaitLockInv(DoProceed(s, t).s)
  {
    var s' := DoProceed(s, t).s;
    assert forall u: Tid | u != t :: At(s', u) == At(s, u);
  }

  lemma ProceedWriteLock(s: State, t: Tid)
    requires WriteLockInv(s) && DoProceed(s, t).Next?
    ensures WriteLockInv(DoProceed(s, t).s)
  {
    var s' := DoProceed(s, t).s;
    assert forall u: Tid | u != t :: At(s', u) == At(s, u);
  }

  lemma ProceedLocks(s: State, t: Tid)
    requires LocksInv(s) && DoProceed(s, t).Next?
    ensures LocksInv(DoProceed(s, t).s)
  {
    ProceedWaitLock(s, t);
    ProceedWriteLock(s, t);
  }

  lemma ProceedPhase(s: State, t: Tid)
    requires Inv(s) && DoProceed(s, t).Next?
    ensures PhaseInv(DoProceed(s, t).s)
  {
    var s' := DoProceed(s, t).s;
    assert forall u: Tid | u != t :: At(s', u) == At(s, u);
  }

  lemma ProceedBounds(s: State, t: Tid)
    requires Inv(s) && DoProceed(s, t).Next?
    ensures BoundsInv(DoProceed(s, t).s)
  {
    var s' := DoProceed(s, t).s;
    assert forall u: Tid | u != t :: At(s', u) == At(s, u);
  }

  /** A thread that holds nothing goes on to hold nothing. */
  lemma OutsideLocks(s: State, t: Tid, pc: Pc)
    requires LocksInv(s) && !HoldsWait(At(s, t)) && !HoldsWait(pc)
    ensures LocksInv(Goto(s, t, pc))
  {
    assert forall u: Tid | u != t :: At(Goto(s, t, pc), u) == At(s, u);
  }

  lemma OutsidePhase(s: State, t: Tid, pc: Pc)
    requires Inv(s) && !HoldsWait(At(s, t)) && !HoldsWait(pc)
    ensures PhaseInv(Goto(s, t, pc)) && Abs(Goto(s, t, pc)) == Abs(s) && Credit(Goto(s, t, pc)) == Credit(s)
  {
    if s.mutexWait.Caller? {
      assert s.mutexWait.t != t && At(Goto(s, t, pc), s.mutexWait.t) == At(s, s.mutexWait.t);
    }
  }

  lemma OutsideBounds(s: State, t: Tid, pc: Pc)
    requires BoundsInv(s) && PcBound(pc, Capacity(s.bandwidth))
    ensures BoundsInv(Goto(s, t, pc))
  {
    assert forall u: Tid | u != t :: At(Goto(s, t, pc), u) == At(s, u);
  }

  lemma OutsideSteps(s: State, a: Action)
    requires Inv(s) && Do(s, a).Next? && !a.TickerStep? && !a.Proceed?
    ensures Inv(Do(s, a).s) && Abs(Do(s, a).s) == Abs(s) && Credit(Do(s, a).s) == Credit(s)
  {
    var pc := At(Do(s, a).s, a.t);
    assert Do(s, a).s == Goto(s, a.t, pc) && PcBound(pc, Capacity(s.bandwidth));
    OutsideLocks(s, a.t, pc);
    OutsidePhase(s, a.t, pc);
    OutsideBounds(s, a.t, pc);
  }

  lemma StepKeeps(s: State, a: Action)
    requires Inv(s) && Do(s, a).Next?
    ensures Inv(Do(s, a).s)
  {
    match a
    case TickerStep =>
      TickerLocks(s);
      TickerPhase(s);
      TickerBounds(s);
    case Proceed(t) =>
      ProceedLocks(s, t);
      ProceedPhase(s, t);
      ProceedBounds(s, t);
    case _ =>
      OutsideSteps(s, a);
  }

  /**
   The wait group is never misused: `Done` never runs at zero, no `Add` meets a sleeper of an earlier round,
   and no sleeper wakes to find a new round begun.
   */
  lemma NeverPanics(s: State, a: Action)
    requires Inv(s)
    ensures !Do(s, a).Panic?
  {
    if a.Proceed? {
      assert HoldsWait(At(s, a.t)) <==> s.mutexWait == Caller(a.t);
    }
  }

  /** What one step is for the atomic bucket: nothing, a tick, or a registration. */
  ghost predicate StepRefines(s: State, a: Action, s': State) {
    var l := Ledger(Abs(s), 0, 0, 0);
    match Label(s, a)
    case None =>
      Abs(s') == Abs(s) && s'.returned + Credit(s') == s.returned + Credit(s)
    case Some(e) =>
      && Allowed(Abs(s), e, s.bandwidth)
      && Abs(s') == Record(l, e, s.bandwidth).bucket
      && s'.returned + Credit(s') == s.returned + Credit(s) + Record(l, e, s.bandwidth).granted
  }

  lemma TickerRefines(s: State)
    requires Inv(s) && DoTicker(s).Next?
    ensures StepRefines(s, TickerStep, DoTicker(s).s)
  {
    var s' := DoTicker(s).s;
    assert forall t: Tid :: At(s', t) == At(s, t);
  }

  lemma ProceedRefines(s: State, t: Tid)
    requires Inv(s) && DoProceed(s, t).Next?
    ensures StepRefines(s, Proceed(t), DoProceed(s, t).s)
  {
    var s' := DoProceed(s, t).s;
    assert HoldsWait(At(s, t)) <==> s.mutexWait == Caller(t);
  }

  // ----- Runs

  /** The atomic events of a run. */
  function Trace(s: State, acts: seq<Action>): seq<Event> {
    if acts == [] then []
    else
      var acts', a := acts[..|acts| - 1], acts[|acts| - 1];
      match Exec(s, acts')
      case Next(mid) =>
        (match Label(mid, a)
         case None => Trace(s, acts')
         case Some(e) => Trace(s, acts') + [e])
      case _ => Trace(s, acts')
  }

  lemma BandwidthFixed(s: State, a: Action)
    requires Do(s, a).Next?
    ensures Do(s, a).s.bandwidth == s.bandwidth
  {
  }

  /**
   Refinement: every run, from any state that satisfies the invariant, panics nowhere, keeps the invariant, and
   is a run of the atomic bucket; what the bucket grants is what callers return with, up to the credit of the
   one caller that has been granted its request and has not returned yet.
   */
  lemma {:induction false} RunRefines(s: State, acts: seq<Action>)
    requires Inv(s)
    ensures !Exec(s, acts).Panic?
    ensures Exec(s, acts).Next? ==>
              var s' := Exec(s, acts).s;
              var l := RunEvents(Ledger(Abs(s), 0, 0, 0), Trace(s, acts), s.bandwidth);
              && Inv(s') && s'.bandwidth == s.bandwidth
              && l.Some? && l.value.bucket == Abs(s')
              && s'.returned + Credit(s') == s.returned + Credit(s) + l.value.granted
    decreases |acts|
  {
    if acts != [] {
      var acts', a := acts[..|acts| - 1], acts[|acts| - 1];
      RunRefines(s, acts');
      if Exec(s, acts').Next? {
        var mid := Exec(s, acts').s;
        NeverPanics(mid, a);
        if Do(mid, a).Next? {
          LastStepRefines(s, acts', mid, a);
        }
      }
    }
  }

  lemma EveryStepRefines(s: State, a: Action)
    requires Inv(s) && Do(s, a).Next?
    ensures StepRefines(s, a, Do(s, a).s)
  {
    match a
    case TickerStep => TickerRefines(s);
    case Proceed(t) => ProceedRefines(s, t);
    case _ => OutsideSteps(s, a);
  }

  lemma TraceLast(s: State, acts: seq<Action>, mid: State, a: Action)
    requires Exec(s, acts) == Next(mid)
    ensures Trace(s, acts + [a]) ==
            match Label(mid, a)
            case None => Trace(s, acts)
            case Some(e) => Trace(s, acts) + [e]
  {
    assert (acts + [a])[..|acts|] == acts;
  }

  lemma RunEventsLast(start: Ledger, es: seq<Event>, bandwidth: U64, l: Ledger, e: Event)
    requires RunEvents(start, es, bandwidth) == Some(l) && Allowed(l.bucket, e, bandwidth)
    ensures RunEvents(start, es + [e], bandwidth) == Some(Record(l, e, bandwidth))
  {
    assert (es + [e])[..|es|] == es;
  }

  /** What an event adds to the totals depends on the bucket alone. */
  lemma RecordAdds(l: Ledger, e: Event, bandwidth: U64)
    ensures var one := Record(Ledger(l.bucket, 0, 0, 0), e, bandwidth);
            Record(l, e, bandwidth).bucket == one.bucket && Record(l, e, bandwidth).granted == l.granted + one.granted
  {
  }

  lemma LastStepRefines(s: State, acts: seq<Action>, mid: State, a: Action)
    requires Inv(mid) && mid.bandwidth == s.bandwidth && Exec(s, acts) == Next(mid) && Do(mid, a).Next?
    requires RunEvents(Ledger(Abs(s), 0, 0, 0), Trace(s, acts), s.bandwidth).Some?
    requires var l := RunEvents(Ledger(Abs(s), 0, 0, 0), Trace(s, acts), s.bandwidth).value;
             l.bucket == Abs(mid) && mid.returned + Credit(mid) == s.returned + Credit(s) + l.granted
    ensures var s' := Do(mid, a).s;
            var l := RunEvents(Ledger(Abs(s), 0, 0, 0), Trace(s, acts + [a]), s.bandwidth);
            && Inv(s') && s'.bandwidth == s.bandwidth
            && l.Some? && l.value.bucket == Abs(s')
            && s'.returned + Credit(s') == s.returned + Credit(s) + l.value.granted
  {
    StepKeeps(mid, a);
    BandwidthFixed(mid, a);
    EveryStepRefines(mid, a);
    TraceLast(s, acts, mid, a);
    if Label(mid, a).Some? {
      var start, e := Ledger(Abs(s), 0, 0, 0), Label(mid, a).value;
      var l := RunEvents(start, Trace(s, acts), s.bandwidth).value;
      RunEventsLast(start, Trace(s, acts), s.bandwidth, l, e);
      RecordAdds(l, e, s.bandwidth);
    }
  }

  /** The wait group between the critical sections: 1 exactly when a nonzero request waits or a request of 0 hangs. */
  lemma CounterExact(s: State)
    requires Inv(s) && s.mutexWriteWait == Nobody
    ensures s.counter == (if s.waiting != 0 || Abs(s).pending == Some(0) then 1 else 0)
    ensures Abs(s).pending == Some(0) ==> s.mutexWait.Caller? && At(s, s.mutexWait.t) in {Registered(0), Asleep(0)}
  {
    if s.mutexWait.Caller? {
      assert HoldsWrite(At(s, s.mutexWait.t)) <==> s.mutexWriteWait == s.mutexWait;
    }
  }

  /** A new round of the wait group begins only when no thread is waiting for an earlier one. */
  lemma RoundsDoNotOverlap(s: State, t: Tid, u: Tid)
    requires Inv(s) && At(s, t).Written?
    ensures !At(s, u).Registered? && !At(s, u).Asleep?
    ensures s.counter == 0 && s.asleep == {}
  {
    assert HoldsWait(At(s, t)) <==> s.mutexWait == Caller(t);
    assert HoldsWait(At(s, u)) <==> s.mutexWait == Caller(u);
  }

  /**
   The rate of the concurrent limiter: in every run from its creation, whatever the callers and the schedule, the
   requests that have returned add up to at most one bandwidth for each tick decided so far.
   */
  lemma ReturnedRate(bandwidth: U64, acts: seq<Action>)
    requires Exec(Init(bandwidth), acts).Next?
    ensures var s := Exec(Init(bandwidth), acts).s;
            s.returned <= TickCount(Trace(Init(bandwidth), acts)) * bandwidth
  {
    InitInv(bandwidth);
    RunRefines(Init(bandwidth), acts);
    RateFromCreation(Trace(Init(bandwidth), acts), bandwidth);
  }

  /** Within any window of `k >= 1` ticks, callers return with at most two capacities and `k - 1` bandwidths. */
  lemma ReturnedInWindow(s: State, acts: seq<Action>)
    requires Inv(s) && Exec(s, acts).Next? && TickCount(Trace(s, acts)) > 0
    ensures var s' := Exec(s, acts).s;
            s'.returned - s.returned <=
            Credit(s) + Capacity(s.bandwidth) + (TickCount(Trace(s, acts)) - 1) * s.bandwidth
    ensures Credit(s) <= Capacity(s.bandwidth)
  {
    AbsSound(s);
    RunRefines(s, acts);
    WindowBounds(Ledger(Abs(s), 0, 0, 0), Trace(s, acts), s.bandwidth);
  }

  lemma AbsSound(s: State)
    requires Inv(s)
    ensures Sound(Ledger(Abs(s), 0, 0, 0), s.bandwidth)
    ensures Credit(s) <= Capacity(s.bandwidth)
  {
    if s.mutexWait.Caller? {
      assert PcBound(At(s, s.mutexWait.t), Capacity(s.bandwidth));
    }
  }

  // ----- Deadlock freedom

  predicate Enabled(s: State, a: Action) {
    Do(s, a).Next?
  }

  /**
   Nobody waits in a cycle. A blocked ticker waits for a caller inside the short critical section, and that caller
   can step; a blocked caller waits for the holder of `mutexWait`, for the ticker inside its critical section, and
   that ticker can step, or, once registered, for a tick that covers its request.
   */
  lemma BlockedOnWhom(s: State, t: Tid)
    requires Inv(s)
    ensures !Enabled(s, TickerStep) ==>
              && s.ticker.Filled? && s.mutexWriteWait.Caller?
              && HoldsWrite(At(s, s.mutexWriteWait.t)) && Enabled(s, Proceed(s.mutexWriteWait.t))
    ensures !Enabled(s, Proceed(t)) && !At(s, t).Idle? && !At(s, t).Sized? && !At(s, t).Buffered? ==>
              match At(s, t)
              case Calling(_) => s.mutexWait.Caller? && s.mutexWait.t != t
              case Fits(_) => s.mutexWriteWait == Ticker && TickerHoldsWrite(s.ticker) && Enabled(s, TickerStep)
              case Asleep(n) => (Abs(s).pending == Some(n) || s.ticker == MustDone(n)) && s.mutexWait == Caller(t)
              case _ => false
  {
    NeverPanics(s, TickerStep);
    NeverPanics(s, Proceed(t));
    assert HoldsWait(At(s, t)) <==> s.mutexWait == Caller(t);
    if s.mutexWriteWait.Caller? {
      var u := s.mutexWriteWait.t;
      assert HoldsWrite(At(s, u));
      assert HoldsWait(At(s, u)) <==> s.mutexWait == Caller(u);
      NeverPanics(s, Proceed(u));
    }
  }

  /** Steps left until the ticker is resting again, counting those of a caller that holds `mutexWriteWait`. */
  function TickDebt(s: State): nat {
    (match s.ticker
     case Resting => 0 case Locked => 6 case Filled(_) => 5 case Deciding(_) => 4
     case MustDone(_) => 3 case Leaving => 2 case Unlocking => 1)
    + if !s.mutexWriteWait.Caller? then 0
      else match At(s, s.mutexWriteWait.t)
        case Writing(_) => 3 case Written(_) => 2 case Added(_) => 1 case _ => 0
  }

  /** Whoever must move for the tick to complete. */
  function Mover(s: State): Action {
    if s.ticker.Filled? && s.mutexWriteWait.Caller? then Proceed(s.mutexWriteWait.t) else TickerStep
  }

  /** Ticks still to be decided before the ticker rests. */
  function TickDue(s: State): nat {
    if s.ticker.Locked? || s.ticker.Filled? || s.ticker.Deciding? then 1 else 0
  }

  lemma TickerMoves(s: State)
    requires Inv(s) && DoTicker(s).Next? && !s.ticker.Resting?
    ensures var s' := DoTicker(s).s;
            && TickDebt(s') < TickDebt(s)
            && TickDue(s) == TickDue(s') + (if s.ticker.Deciding? then 1 else 0)
            && (s'.mutexWriteWait.Caller? ==> s'.mutexWriteWait == s.mutexWriteWait)
  {
    if s.mutexWriteWait.Caller? {
      assert HoldsWrite(At(s, s.mutexWriteWait.t));
    }
  }

  lemma HolderMoves(s: State, t: Tid)
    requires Inv(s) && s.mutexWriteWait == Caller(t) && DoProceed(s, t).Next?
    ensures var s' := DoProceed(s, t).s;
            && TickDebt(s') < TickDebt(s) && s'.ticker == s.ticker
            && (s'.mutexWriteWait.Caller? ==> s'.mutexWriteWait == s.mutexWriteWait)
  {
    assert HoldsWrite(At(s, t));
  }

  lemma MoverMoves(s: State) returns (s': State)
    requires Inv(s) && !s.ticker.Resting?
    ensures Do(s, Mover(s)) == Next(s') && Inv(s')
    ensures TickDebt(s') < TickDebt(s)
    ensures TickDue(s) == TickDue(s') + if Label(s, Mover(s)) == Some(TickEvent) then 1 else 0
    ensures s'.mutexWriteWait.Caller? ==> s'.mutexWriteWait == s.mutexWriteWait
  {
    BlockedOnWhom(s, 0);
    NeverPanics(s, Mover(s));
    if s.ticker.Filled? && s.mutexWriteWait.Caller? {
      HolderMoves(s, s.mutexWriteWait.t);
    } else {
      TickerMoves(s);
    }
    StepKeeps(s, Mover(s));
    s' := Do(s, Mover(s)).s;
  }

  /** From every reachable moment a tick completes within nine steps of the ticker and the lock holder alone. */
  lemma {:induction false} TickCompletes(s: State) returns (acts: seq<Action>, s': State)
    requires Inv(s)
    ensures Exec(s, acts) == Next(s') && s'.ticker.Resting? && Inv(s')
    ensures |acts| <= TickDebt(s) <= 9
    ensures forall a | a in acts :: a == TickerStep || (s.mutexWriteWait.Caller? && a == Proceed(s.mutexWriteWait.t))
    ensures TickCount(Trace(s, acts)) == TickDue(s)
    decreases TickDebt(s)
  {
    if s.ticker.Resting? {
      acts, s' := [], s;
    } else {
      var mid := MoverMoves(s);
      var rest;
      rest, s' := TickCompletes(mid);
      TraceFront(s, Mover(s), mid, rest);
      acts := [Mover(s)] + rest;
    }
  }

  lemma TickCountSnoc(es: seq<Event>, e: Event)
    ensures TickCount(es + [e]) == TickCount(es) + if e.TickEvent? then 1 else 0
  {
    assert (es + [e])[..|es|] == es;
  }

  /** The ticks of a run, one step longer. */
  lemma TraceSnoc(s: State, acts: seq<Action>, a: Action)
    requires Exec(s, acts).Next?
    ensures Exec(s, acts + [a]) == Do(Exec(s, acts).s, a)
    ensures TickCount(Trace(s, acts + [a])) ==
            TickCount(Trace(s, acts)) + if Label(Exec(s, acts).s, a) == Some(TickEvent) then 1 else 0
  {
    assert (acts + [a])[..|acts|] == acts;
    match Label(Exec(s, acts).s, a)
    case None =>
    case Some(e) => TickCountSnoc(Trace(s, acts), e);
  }

  lemma TraceOne(s: State, a: Action, s': State)
    requires Do(s, a) == Next(s')
    ensures Exec(s, [a]) == Next(s')
    ensures TickCount(Trace(s, [a])) == if Label(s, a) == Some(TickEvent) then 1 else 0
  {
    TraceSnoc(s, [], a);
    assert [] + [a] == [a];
  }

  lemma {:induction false} TraceFront(s: State, a: Action, s': State, acts: seq<Action>)
    requires Do(s, a) == Next(s') && Exec(s', acts).Next?
    ensures Exec(s, [a] + acts) == Exec(s', acts)
    ensures TickCount(Trace(s, [a] + acts)) ==
            TickCount(Trace(s', acts)) + if Label(s, a) == Some(TickEvent) then 1 else 0
  {
    TraceOne(s, a, s');
    ExecAppend(s, [a], acts);
  }

  lemma {:induction false} ExecAppend(s: State, a: seq<Action>, b: seq<Action>)
    requires Exec(s, a).Next? && Exec(Exec(s, a).s, b).Next?
    ensures Exec(s, a + b) == Exec(Exec(s, a).s, b)
    ensures TickCount(Trace(s, a + b)) == TickCount(Trace(s, a)) + TickCount(Trace(Exec(s, a).s, b))
    decreases |b|
  {
    if b == [] {
      assert a + b == a;
    } else {
      var b', x := b[..|b| - 1], b[|b| - 1];
      assert b == b' + [x] && a + b == (a + b') + [x];
      ExecAppend(s, a, b');
      TraceSnoc(s, a + b', x);
      TraceSnoc(Exec(s, a).s, b', x);
    }
  }

  /** One whole tick can pass, and ticks can go on, from every reachable moment, whatever the callers are doing. */
  lemma OneMoreTick(s: State) returns (acts: seq<Action>, s': State)
    requires Inv(s)
    ensures Exec(s, acts) == Next(s') && Inv(s')
    ensures TickCount(Trace(s, acts)) >= 1
  {
    var finish, resting := TickCompletes(s);
    StepKeeps(resting, TickerStep);
    var locked := Do(resting, TickerStep).s;
    var tick;
    tick, s' := TickCompletes(locked);
    TraceFront(resting, TickerStep, locked, tick);
    ExecAppend(s, finish, [TickerStep] + tick);
    acts := finish + ([TickerStep] + tick);
  }

  lemma {:induction false} TicksGoOn(s: State, k: nat) returns (acts: seq<Action>, s': State)
    requires Inv(s)
    ensures Exec(s, acts) == Next(s') && Inv(s')
    ensures TickCount(Trace(s, acts)) >= k
    decreases k
  {
    if k == 0 {
      acts, s' := [], s;
    } else {
      var rest, mid := TicksGoOn(s, k - 1);
      var more;
      more, s' := OneMoreTick(mid);
      ExecAppend(s, rest, more);
      acts := rest + more;
    }
  }

  // ----- Service under every schedule

  /** A registered request that no tick has covered yet. */
  predicate Waits(s: State, t: Tid, n: U64) {
    (At(s, t) == Registered(n) || At(s, t) == Asleep(n)) && Abs(s).pending.Some?
  }

  lemma WaitsForItsOwn(s: State, t: Tid, n: U64)
    requires Inv(s) && Waits(s, t, n)
    ensures Abs(s).pending == Some(n) && s.mutexWait == Caller(t) && Credit(s) == 0 && n <= Capacity(s.bandwidth)
  {
    assert HoldsWait(At(s, t)) <==> s.mutexWait == Caller(t);
    assert PcBound(At(s, t), Capacity(s.bandwidth));
  }

  /**
   Exact service time under every schedule of every number of callers: a waiting request is not granted by any run
   with fewer ticks than its service tick, is granted by every run with that many, and that is at most sixteen.
   */
  lemma ServedUnderEverySchedule(s: State, t: Tid, n: U64, acts: seq<Action>)
    requires Inv(s) && Waits(s, t, n) && n > 0
    requires Exact(s.bandwidth) && s.bandwidth > 0 && Exec(s, acts).Next?
    ensures var s' := Exec(s, acts).s;
            var due := ServiceTick(n, Abs(s).tokens, s.bandwidth);
            && due <= 16
            && (TickCount(Trace(s, acts)) < due ==>
                  Waits(s', t, n) && s'.returned == s.returned)
            && (TickCount(Trace(s, acts)) >= due ==> s'.returned + Credit(s') >= s.returned + n)
  {
    WaitsForItsOwn(s, t, n);
    AbsSound(s);
    RunRefines(s, acts);
    ServedInEveryRun(Ledger(Abs(s), 0, 0, 0), Trace(s, acts), s.bandwidth);
    ServedWithinSixteen(n, Abs(s).tokens, s.bandwidth);
    if TickCount(Trace(s, acts)) < ServiceTick(n, Abs(s).tokens, s.bandwidth) {
      StillWaits(s, t, n, acts);
    }
  }

  /** As long as nothing has been granted since, the waiting thread is where it was. */
  lemma {:induction false} StillWaits(s: State, t: Tid, n: U64, acts: seq<Action>)
    requires Inv(s) && Waits(s, t, n) && Exec(s, acts).Next?
    requires var s' := Exec(s, acts).s; s'.returned + Credit(s') == s.returned
    ensures Waits(Exec(s, acts).s, t, n) && Exec(s, acts).s.returned == s.returned
    decreases |acts|
  {
    WaitsForItsOwn(s, t, n);
    if acts != [] {
      var acts', a := acts[..|acts| - 1], acts[|acts| - 1];
      RunRefines(s, acts');
      var mid := Exec(s, acts').s;
      CreditGrows(mid, a);
      StillWaits(s, t, n, acts');
      WaitingStep(mid, t, n, a);
    }
  }

  lemma CreditGrows(s: State, a: Action)
    requires Inv(s) && Do(s, a).Next?
    ensures s.returned + Credit(s) <= Do(s, a).s.returned + Credit(Do(s, a).s)
    ensures s.returned <= Do(s, a).s.returned
  {
    match a
    case TickerStep => TickerRefines(s);
    case Proceed(t) => ProceedRefines(s, t);
    case _ => OutsideSteps(s, a);
  }

  /** A step leaves a waiting request waiting, unless it is the tick that grants it. */
  lemma WaitingStep(s: State, t: Tid, n: U64, a: Action)
    requires Inv(s) && Waits(s, t, n) && Do(s, a).Next?
    ensures var s' := Do(s, a).s;
            || (Waits(s', t, n) && s'.returned == s.returned)
            || (a == TickerStep && n > 0 && Credit(s') == n && s'.returned == s.returned)
  {
    WaitsForItsOwn(s, t, n);
  }

  /**
   `m` callers, under every schedule: the ticks that find a request pending, and those that the present one has still
   to wait, are at most the sum of the rounded-up quotients of the requests, at most `16 * m`; what has been requested
   has returned, but for the pending request and the last one's way out.
   */
  lemma LineUnderEverySchedule(s: State, acts: seq<Action>)
    requires Inv(s) && Abs(s).pending.None? && Exact(s.bandwidth) && s.bandwidth > 0 && Exec(s, acts).Next?
    requires Positive(Requests(Trace(s, acts)))
    ensures var s', es := Exec(s, acts).s, Trace(s, acts);
            var ns, busy := Requests(es), BusyTicks(Ledger(Abs(s), 0, 0, 0), es, s.bandwidth);
            && busy + Remaining(Abs(s'), s.bandwidth) <= TotalCeil(ns, s.bandwidth) <= 16 * |ns|
            && s'.returned + Credit(s') + Pending(Abs(s')) == s.returned + Credit(s) + Total(ns)
            && (busy == TotalCeil(ns, s.bandwidth) ==> Abs(s').pending.None?)
  {
    AbsSound(s);
    RunRefines(s, acts);
    LineIsServed(Ledger(Abs(s), 0, 0, 0), Trace(s, acts), s.bandwidth);
  }

  /** Once granted, a caller is stopped by nobody: at most the rest of the tick stands before its return. */
  lemma GrantedReturns(s: State, t: Tid)
    requires Inv(s) && s.mutexWait == Caller(t) && Credit(s) > 0
    ensures Enabled(s, Proceed(t)) || (s.ticker == MustDone(Credit(s)) && Enabled(s, TickerStep))
  {
    NeverPanics(s, Proceed(t));
    NeverPanics(s, TickerStep);
  }

  // ----- A request of 0

  /** Once a request of 0 has registered, no schedule ever releases it, and no other caller enters. */
  lemma {:induction false} ZeroHangs(s: State, t: Tid, acts: seq<Action>)
    requires Inv(s) && Waits(s, t, 0) && Exec(s, acts).Next?
    ensures var s' := Exec(s, acts).s;
            Waits(s', t, 0) && s'.mutexWait == Caller(t) && s'.returned == s.returned
    decreases |acts|
  {
    WaitsForItsOwn(s, t, 0);
    if acts != [] {
      var acts' := acts[..|acts| - 1];
      ZeroHangs(s, t, acts');
      RunRefines(s, acts');
      RunRefines(s, acts);
      WaitingStep(Exec(s, acts').s, t, 0, acts[|acts| - 1]);
    }
  }

  /** The holder of a grant can be brought to return by its own steps and at most one of the ticker. */
  lemma {:induction false} GrantIsCollected(s: State, t: Tid, fuel: nat) returns (acts: seq<Action>)
    requires Inv(s) && s.mutexWait == Caller(t) && Credit(s) > 0
    requires fuel == (if s.ticker.MustDone? then 1 else 0) + if At(s, t).Returned? then 0 else 1
    ensures Exec(s, acts).Next? && Exec(s, acts).s.returned == s.returned + Credit(s)
    decreases fuel
  {
    GrantedReturns(s, t);
    var a := if Enabled(s, Proceed(t)) && !(At(s, t).Registered? && s.ticker.MustDone?) then Proceed(t) else TickerStep;
    NeverPanics(s, a);
    var s' := Do(s, a).s;
    StepKeeps(s, a);
    CreditGrows(s, a);
    if At(s, t).Returned? && a == Proceed(t) {
      acts := [a];
      assert acts[..0] == [];
    } else {
      var rest := GrantIsCollected(s', t, fuel - 1);
      TraceFront(s, a, s', rest);
      acts := [a] + rest;
    }
  }

  /** Some schedule lets a registered request return exactly when the request is not 0. */
  lemma ReleasedIff(s: State, t: Tid, n: U64)
    requires Inv(s) && Waits(s, t, n) && Exact(s.bandwidth) && s.bandwidth > 0
    ensures n != 0 <==> exists acts :: Exec(s, acts).Next? && Exec(s, acts).s.returned > s.returned
  {
    if n == 0 {
      forall acts | Exec(s, acts).Next? ensures Exec(s, acts).s.returned == s.returned {
        ZeroHangs(s, t, acts);
      }
    } else {
      var acts, s' := TicksGoOn(s, 16);
      ServedUnderEverySchedule(s, t, n, acts);
      if s'.returned == s.returned {
        var u := s'.mutexWait.t;
        var fuel := (if s'.ticker.MustDone? then 1 else 0) + if At(s', u).Returned? then 0 else 1;
        var more := GrantIsCollected(s', u, fuel);
        ExecAppend(s, acts, more);
        assert Exec(s, acts + more).s.returned > s.returned;
      } else {
        WaitsForItsOwn(s, t, n);
        ReturnedGrows(s, acts);
      }
    }
  }

  lemma {:induction false} ReturnedGrows(s: State, acts: seq<Action>)
    requires Inv(s) && Exec(s, acts).Next?
    ensures s.returned <= Exec(s, acts).s.returned
    decreases |acts|
  {
    if acts != [] {
      var acts' := acts[..|acts| - 1];
      RunRefines(s, acts');
      ReturnedGrows(s, acts');
      CreditGrows(Exec(s, acts').s, acts[|acts| - 1]);
    }
  }

  // ----- The relay loop

  /** The schedules in which only relay goroutines call the limiter. */
  predicate RelayOnly(acts: seq<Action>) {
    forall a | a in acts :: !a.Request?
  }

  /**
   A buffer is sized by the tokens or the bandwidth; one that can be made is within the capacity, and so is what it is
   filled with, and it is empty only when the bandwidth is 0.
   */
  predicate RelayPc(pc: Pc, bandwidth: U64) {
    && (match pc
        case Idle => true
        case Sized(r) => r <= Capacity(bandwidth) || r == bandwidth
        case Buffered(r) => r <= Capacity(bandwidth)
        case Refused(_) => false
        case _ => pc.n <= Capacity(bandwidth))
    && (bandwidth > 0 ==>
          match pc
          case Idle => true
          case Sized(r) => r > 0
          case Buffered(r) => r > 0
          case _ => pc.n > 0)
  }

  ghost predicate RelayInv(s: State) {
    forall t: Tid :: RelayPc(At(s, t), s.bandwidth)
  }

  lemma RelayStepAt(s: State, a: Action)
    requires Inv(s) && Do(s, a).Next? && !a.Request? && !a.TickerStep? && RelayPc(At(s, a.t), s.bandwidth)
    ensures RelayPc(At(Do(s, a).s, a.t), s.bandwidth)
  {
  }

  lemma RelayStep(s: State, a: Action)
    requires Inv(s) && RelayInv(s) && Do(s, a).Next? && !a.Request?
    ensures RelayInv(Do(s, a).s)
  {
    var s' := Do(s, a).s;
    BandwidthFixed(s, a);
    if !a.TickerStep? {
      RelayStepAt(s, a);
    }
    forall t: Tid ensures RelayPc(At(s', t), s.bandwidth) {
      if a.TickerStep? || a.t != t {
        assert At(s', t) == At(s, t);
      }
    }
  }

  lemma {:induction false} RelayRun(bandwidth: U64, acts: seq<Action>)
    requires RelayOnly(acts) && Exec(Init(bandwidth), acts).Next?
    ensures RelayInv(Exec(Init(bandwidth), acts).s) && Exec(Init(bandwidth), acts).s.bandwidth == bandwidth
    decreases |acts|
  {
    InitInv(bandwidth);
    if acts != [] {
      var acts' := acts[..|acts| - 1];
      RelayRun(bandwidth, acts');
      RunRefines(Init(bandwidth), acts');
      RunRefines(Init(bandwidth), acts);
      RelayStep(Exec(Init(bandwidth), acts').s, acts[|acts| - 1]);
    }
  }

  /**
   What a relay goroutine asks for. It looks at the bucket: for the tokens held, or for one bandwidth if there are none.
   A buffer of that size is made unless it is too long, and what a read then asks the limiter for is anything from 1 to
   that size, or 0 if that is 0.
   */
  lemma RelayAsks(s: State, t: Tid, n: U64)
    requires At(s, t).Idle?
    ensures Do(s, ReadAvailable(t)).Next?
    ensures var size := if s.tokens > 0 then s.tokens else s.bandwidth;
            var made := Do(Do(s, ReadAvailable(t)).s, MakeBuffer(t));
            && (made.TooLong? <==> size > MAX_ALLOC)
            && (made.Next? <==> size <= MAX_ALLOC)
            && (made.Next? ==>
                  && (Do(made.s, SocketRead(t, n)).Next? <==> if size == 0 then n == 0 else 1 <= n <= size)
                  && (Do(made.s, SocketRead(t, n)).Next? ==> At(Do(made.s, SocketRead(t, n)).s, t) == Calling(n))
                  && Do(made.s, SocketFails(t)).Next? && At(Do(made.s, SocketFails(t)).s, t).Idle?)
  {
  }

  /** A call of `Wait` that finds nobody inside is refused exactly when it asks for more than the capacity. */
  lemma WaitRefusesIff(s: State, t: Tid, n: U64)
    requires At(s, t).Idle? && s.mutexWait == Nobody
    ensures var o := Exec(s, [Request(t, n)] + [Proceed(t)] + [Proceed(t)]);
            o.Next? && At(o.s, t) == (if n > Capacity(s.bandwidth) then Refused(n) else Fits(n))
  {
    var s1 := Goto(s, t, Calling(n));
    var s2 := Goto(s1, t, Entered(n)).(mutexWait := Caller(t));
    TwoSteps(s, Request(t, n), s1, Proceed(t), s2);
    Then(s, [Request(t, n)] + [Proceed(t)], s2, Proceed(t));
  }

  // ----- A relay goroutine by itself

  /** Steps of the ticker and of one relay goroutine that has looked at the bucket and does not look again. */
  predicate AfterLook(acts: seq<Action>, t: Tid) {
    forall a | a in acts :: a.TickerStep? || (!a.ReadAvailable? && !a.Request? && a.t == t)
  }

  /** Until it is granted, what it asks for is no more than what it saw, and that is still held. */
  predicate SeesEnough(pc: Pc, tokens: U64, pending: bool, seen: U64) {
    match pc
    case Idle => true
    case Returned(_) => true
    case Refused(_) => false
    case Sized(r) => r == seen <= tokens
    case Buffered(r) => r == seen <= tokens
    case Registered(n) => 0 < n <= seen && (pending ==> seen <= tokens)
    case Asleep(n) => 0 < n <= seen && (pending ==> seen <= tokens)
    case _ => 0 < pc.n <= seen <= tokens
  }

  ghost predicate LoneInv(s: State, t: Tid, seen: U64) {
    && (forall u: Tid | u != t :: At(s, u).Idle?)
    && SeesEnough(At(s, t), s.tokens, Abs(s).pending.Some?, seen)
  }

  lemma HolderIsLone(s: State, t: Tid, seen: U64)
    requires LocksInv(s) && LoneInv(s, t, seen)
    ensures s.mutexWait == (if HoldsWait(At(s, t)) then Caller(t) else Nobody)
  {
    if s.mutexWait.Caller? {
      assert HoldsWait(At(s, s.mutexWait.t));
    }
  }

  lemma LoneTicker(s: State, t: Tid, seen: U64)
    requires Inv(s) && LoneInv(s, t, seen) && Exact(s.bandwidth) && 0 < seen <= Capacity(s.bandwidth)
    requires DoTicker(s).Next?
    ensures LoneInv(DoTicker(s).s, t, seen)
  {
    var s' := DoTicker(s).s;
    assert forall u: Tid :: At(s', u) == At(s, u);
    SaturateBounds(s.tokens, s.bandwidth);
    HolderIsLone(s, t, seen);
  }

  lemma LoneStep(s: State, a: Action, t: Tid, seen: U64)
    requires Inv(s) && LoneInv(s, t, seen) && 0 < seen <= Capacity(s.bandwidth) && Do(s, a).Next?
    requires !a.TickerStep? && !a.ReadAvailable? && !a.Request? && a.t == t
    ensures LoneInv(Do(s, a).s, t, seen)
  {
    var s' := Do(s, a).s;
    assert forall u: Tid | u != t :: At(s', u) == At(s, u);
    assert HoldsWait(At(s, t)) <==> s.mutexWait == Caller(t);
  }

  lemma {:induction false} LoneRun(s: State, acts: seq<Action>, t: Tid, seen: U64)
    requires Inv(s) && LoneInv(s, t, seen) && Exact(s.bandwidth) && 0 < seen <= Capacity(s.bandwidth)
    requires AfterLook(acts, t) && Exec(s, acts).Next?
    ensures Inv(Exec(s, acts).s) && LoneInv(Exec(s, acts).s, t, seen)
    decreases |acts|
  {
    if acts != [] {
      var acts', a := acts[..|acts| - 1], acts[|acts| - 1];
      LoneRun(s, acts', t, seen);
      RunRefines(s, acts');
      StepKeeps(Exec(s, acts').s, a);
      if a.TickerStep? {
        LoneTicker(Exec(s, acts').s, t, seen);
      } else {
        LoneStep(Exec(s, acts').s, a, t, seen);
      }
    }
  }

  /**
   A relay goroutine by itself, that has found the bucket nonempty, never draws on a tick after its look: whatever it
   reads, and however its steps and the ticker's interleave, it asks for no more than it has seen; as long as it waits
   all of that is still held, so that the next tick that is decided grants it.
   */
  lemma LoneRelayDrawsOnWhatItSaw(s: State, t: Tid, acts: seq<Action>, n: U64)
    requires Inv(s) && s.tokens > 0 && Exact(s.bandwidth) && s.bandwidth > 0
    requires forall u: Tid :: At(s, u).Idle?
    requires AfterLook(acts, t) && Exec(Do(s, ReadAvailable(t)).s, acts).Next?
    requires Waits(Exec(Do(s, ReadAvailable(t)).s, acts).s, t, n)
    ensures var s' := Exec(Do(s, ReadAvailable(t)).s, acts).s;
            && 0 < n <= s.tokens <= s'.tokens
            && ServiceTick(n, Abs(s').tokens, s.bandwidth) == 1
            && (s'.ticker.Deciding? ==> DoTicker(s').Next? && DoTicker(s').s.ticker == MustDone(n))
  {
    var s1 := Do(s, ReadAvailable(t)).s;
    StepKeeps(s, ReadAvailable(t));
    LoneRun(s1, acts, t, s.tokens);
    RunRefines(s1, acts);
    var s' := Exec(s1, acts).s;
    WaitsForItsOwn(s', t, n);
    SaturateBounds(Abs(s').tokens, s.bandwidth);
  }

  /** The schedule is one of relay goroutines only and leaves caller `t` at `pc`. */
  predicate RelayVisits(bandwidth: U64, acts: seq<Action>, t: Tid, pc: Pc) {
    RelayOnly(acts) && Exec(Init(bandwidth), acts).Next? && At(Exec(Init(bandwidth), acts).s, t) == pc
  }

  lemma RelayVisitsOnly(bandwidth: U64, acts: seq<Action>, t: Tid, pc: Pc)
    requires RelayVisits(bandwidth, acts, t, pc)
    ensures RelayPc(pc, bandwidth)
  {
    RelayRun(bandwidth, acts);
    assert RelayPc(At(Exec(Init(bandwidth), acts).s, t), bandwidth);
  }

  /** One step more, and one run after another. */
  lemma Then(s: State, acts: seq<Action>, mid: State, a: Action)
    requires Exec(s, acts) == Next(mid)
    ensures Exec(s, acts + [a]) == Do(mid, a)
  {
    assert (acts + [a])[..|acts|] == acts;
  }

  lemma {:induction false} Join(s: State, a: seq<Action>, mid: State, b: seq<Action>)
    requires Exec(s, a) == Next(mid)
    ensures Exec(s, a + b) == Exec(mid, b)
    decreases |b|
  {
    if b == [] {
      assert a + b == a;
    } else {
      Join(s, a, mid, b[..|b| - 1]);
      assert (a + b)[..|a + b| - 1] == a + b[..|b| - 1];
    }
  }

  lemma TwoSteps(s: State, a: Action, s1: State, b: Action, s2: State)
    requires Do(s, a) == Next(s1) && Do(s1, b) == Next(s2)
    ensures Exec(s, [a] + [b]) == Next(s2)
  {
    Then(s, [], s, a);
    assert [] + [a] == [a];
    Then(s, [a], s1, b);
  }

  /**
   The relay loop is never refused for want of capacity: not at any bandwidth, nor in any schedule of any number of
   connections. Where the shift by four bits loses something, no buffer of one bandwidth can be made.
   */
  lemma RelayNeverRefused(bandwidth: U64, acts: seq<Action>, t: Tid, n: U64)
    ensures !RelayVisits(bandwidth, acts, t, Refused(n))
  {
    if RelayVisits(bandwidth, acts, t, Refused(n)) {
      RelayVisitsOnly(bandwidth, acts, t, Refused(n));
    }
  }

  /** What is between one rest of the ticker and the next, when nobody waits. */
  predicate AtRest(s: State) {
    s.ticker.Resting? && s.mutex == Nobody && s.mutexWriteWait == Nobody && s.waiting == 0
  }

  const TWO_TICKER_STEPS: seq<Action> := [TickerStep] + [TickerStep]

  lemma IdleFills(s: State)
    requires AtRest(s)
    ensures Exec(s, TWO_TICKER_STEPS) ==
            Next(s.(tokens := Saturate(s.tokens, s.bandwidth, Capacity(s.bandwidth)), mutex := Ticker,
                    ticker := Filled(s.tokens)))
  {
    TwoSteps(s, TickerStep, s.(mutex := Ticker, ticker := Locked), TickerStep,
             s.(tokens := Saturate(s.tokens, s.bandwidth, Capacity(s.bandwidth)), mutex := Ticker,
                ticker := Filled(s.tokens)));
  }

  lemma IdleDecides(s: State)
    requires s.ticker.Filled? && s.mutexWriteWait == Nobody && s.waiting == 0
    ensures Exec(s, TWO_TICKER_STEPS) == Next(s.(mutexWriteWait := Ticker, ticker := Leaving))
  {
    TwoSteps(s, TickerStep, s.(mutexWriteWait := Ticker, ticker := Deciding(s.ticker.before)), TickerStep,
             s.(mutexWriteWait := Ticker, ticker := Leaving));
  }

  lemma IdleLeaves(s: State)
    requires s.ticker.Leaving?
    ensures Exec(s, TWO_TICKER_STEPS) == Next(s.(mutexWriteWait := Nobody, mutex := Nobody, ticker := Resting))
  {
    TwoSteps(s, TickerStep, s.(mutexWriteWait := Nobody, ticker := Unlocking), TickerStep,
             s.(mutexWriteWait := Nobody, mutex := Nobody, ticker := Resting));
  }

  /** Six steps of the ticker: an idle bucket takes one bandwidth. */
  lemma IdleTick(s: State) returns (acts: seq<Action>)
    requires AtRest(s)
    ensures RelayOnly(acts)
    ensures Exec(s, acts) == Next(s.(tokens := Saturate(s.tokens, s.bandwidth, Capacity(s.bandwidth))))
  {
    IdleFills(s);
    var filled := Exec(s, TWO_TICKER_STEPS).s;
    IdleDecides(filled);
    var left := Exec(filled, TWO_TICKER_STEPS).s;
    IdleLeaves(left);
    Join(s, TWO_TICKER_STEPS, filled, TWO_TICKER_STEPS);
    Join(s, TWO_TICKER_STEPS + TWO_TICKER_STEPS, left, TWO_TICKER_STEPS);
    acts := TWO_TICKER_STEPS + TWO_TICKER_STEPS + TWO_TICKER_STEPS;
  }

  /** `k` ticks of a fresh limiter that nobody calls. */
  lemma {:induction false} IdleTicks(bandwidth: U64, k: nat) returns (acts: seq<Action>)
    ensures RelayOnly(acts)
    ensures Exec(Init(bandwidth), acts) == Next(Init(bandwidth).(tokens := IdleTokens(bandwidth, k)))
  {
    if k == 0 {
      acts := [];
    } else {
      var before := IdleTicks(bandwidth, k - 1);
      IdleStaysIdle(bandwidth, k - 1);
      var mid := Init(bandwidth).(tokens := IdleTokens(bandwidth, k - 1));
      var tick := IdleTick(mid);
      Join(Init(bandwidth), before, mid, tick);
      acts := before + tick;
    }
  }

  /** The schedule is one of relay goroutines only and ends where a buffer is too long to be made. */
  predicate RelayTooLong(bandwidth: U64, acts: seq<Action>) {
    RelayOnly(acts) && Exec(Init(bandwidth), acts).TooLong?
  }

  /** After `k` idle ticks a goroutine asks for all there is. */
  lemma MakesTooLong(bandwidth: U64, k: nat) returns (acts: seq<Action>)
    requires (if IdleTokens(bandwidth, k) == 0 then bandwidth else IdleTokens(bandwidth, k)) > MAX_ALLOC
    ensures RelayTooLong(bandwidth, acts)
  {
    var ticks := IdleTicks(bandwidth, k);
    var s := Init(bandwidth).(tokens := IdleTokens(bandwidth, k));
    Then(Init(bandwidth), ticks, s, ReadAvailable(0));
    Then(Init(bandwidth), ticks + [ReadAvailable(0)], Do(s, ReadAvailable(0)).s, MakeBuffer(0));
    acts := ticks + [ReadAvailable(0)] + [MakeBuffer(0)];
  }

  lemma CapacityWithin(bandwidth: U64)
    requires 16 * bandwidth <= MAX_ALLOC
    ensures Capacity(bandwidth) == 16 * bandwidth
  {
  }

  lemma BufferFits(s: State, a: Action)
    requires RelayInv(s) && 16 * s.bandwidth <= MAX_ALLOC
    ensures !Do(s, a).TooLong?
  {
    if a.MakeBuffer? {
      CapacityWithin(s.bandwidth);
      assert RelayPc(At(s, a.t), s.bandwidth);
    }
  }

  lemma {:induction false} NeverTooLong(bandwidth: U64, acts: seq<Action>)
    requires 16 * bandwidth <= MAX_ALLOC && RelayOnly(acts)
    ensures !Exec(Init(bandwidth), acts).TooLong?
    decreases |acts|
  {
    if acts != [] {
      var acts', a := acts[..|acts| - 1], acts[|acts| - 1];
      NeverTooLong(bandwidth, acts');
      if Exec(Init(bandwidth), acts').Next? {
        RelayRun(bandwidth, acts');
        BufferFits(Exec(Init(bandwidth), acts').s, a);
      }
    }
  }

  /**
   What does happen at large bandwidths: some schedule of the relay goroutines ends in a panic over a buffer too long to
   be made exactly when a full bucket, of sixteen bandwidths, is more than the longest buffer.
   */
  lemma RelayTooLongIff(bandwidth: U64)
    ensures (exists acts :: RelayTooLong(bandwidth, acts)) <==> 16 * bandwidth > MAX_ALLOC
  {
    if bandwidth > MAX_ALLOC {
      var acts := MakesTooLong(bandwidth, 0);
    } else if 16 * bandwidth > MAX_ALLOC {
      IdleExact(bandwidth, 16);
      var acts := MakesTooLong(bandwidth, 16);
    } else {
      forall acts ensures !RelayTooLong(bandwidth, acts) {
        if RelayOnly(acts) {
          NeverTooLong(bandwidth, acts);
        }
      }
    }
  }

  /** One relay goroutine on a fresh limiter of bandwidth 0 makes an empty buffer. */
  lemma ZeroBuffer() returns (acts: seq<Action>, s: State)
    ensures RelayOnly(acts) && Exec(Init(0), acts) == Next(s) && s == Init(0).(pcs := map[0 := Buffered(0)])
  {
    s := Init(0).(pcs := map[0 := Buffered(0)]);
    var sized := Init(0).(pcs := map[0 := Sized(0)]);
    assert sized.pcs[0 := Buffered(0)] == s.pcs;
    acts := [ReadAvailable(0)] + [MakeBuffer(0)];
    TwoSteps(Init(0), ReadAvailable(0), sized, MakeBuffer(0), s);
  }

  /** It reads nothing into it and asks for as much. */
  lemma ZeroEnters(s: State) returns (acts: seq<Action>, s': State)
    requires s == Init(0).(pcs := map[0 := Buffered(0)])
    ensures RelayOnly(acts) && Exec(s, acts) == Next(s')
    ensures s' == Init(0).(pcs := map[0 := Entered(0)], mutexWait := Caller(0))
  {
    var calling := Init(0).(pcs := map[0 := Calling(0)]);
    s' := Init(0).(pcs := map[0 := Entered(0)], mutexWait := Caller(0));
    assert s.pcs[0 := Calling(0)] == calling.pcs && calling.pcs[0 := Entered(0)] == s'.pcs;
    acts := [SocketRead(0, 0)] + [Proceed(0)];
    TwoSteps(s, SocketRead(0, 0), calling, Proceed(0), s');
  }

  lemma ZeroIsWithin(s: State, t: Tid)
    requires At(s, t) == Entered(0)
    ensures Do(s, Proceed(t)) == Next(Goto(s, t, Fits(0)))
  {
  }

  lemma ZeroFits() returns (acts: seq<Action>, s: State)
    ensures RelayOnly(acts) && Exec(Init(0), acts) == Next(s)
    ensures At(s, 0) == Fits(0) && s.mutexWriteWait == Nobody && s.counter == 0 && s.asleep == {}
  {
    var buffer, s1 := ZeroBuffer();
    var enter, s2 := ZeroEnters(s1);
    Join(Init(0), buffer, s1, enter);
    ZeroIsWithin(s2, 0);
    s := Goto(s2, 0, Fits(0));
    Then(Init(0), buffer + enter, s2, Proceed(0));
    acts := buffer + enter + [Proceed(0)];
  }

  /** A request of 0 that fits goes on to register, if nobody is in its way. */
  lemma ZeroWrites(s: State) returns (acts: seq<Action>, s': State)
    requires At(s, 0) == Fits(0) && s.mutexWriteWait == Nobody
    ensures Exec(s, acts) == Next(s') && RelayOnly(acts)
    ensures At(s', 0) == Written(0) && s'.counter == s.counter && s'.asleep == s.asleep
  {
    var s1 := Goto(s, 0, Writing(0)).(mutexWriteWait := Caller(0));
    s' := Goto(s1, 0, Written(0)).(waiting := 0);
    acts := [Proceed(0)] + [Proceed(0)];
    TwoSteps(s, Proceed(0), s1, Proceed(0), s');
  }

  lemma ZeroAdds(s: State) returns (acts: seq<Action>, s': State)
    requires At(s, 0) == Written(0) && s.counter == 0 && s.asleep == {}
    ensures Exec(s, acts) == Next(s') && RelayOnly(acts) && At(s', 0) == Registered(0)
  {
    var s1 := Goto(s, 0, Added(0)).(counter := 1);
    s' := Goto(s1, 0, Registered(0)).(mutexWriteWait := Nobody);
    acts := [Proceed(0)] + [Proceed(0)];
    TwoSteps(s, Proceed(0), s1, Proceed(0), s');
  }

  lemma ZeroRegisters() returns (acts: seq<Action>)
    ensures RelayVisits(0, acts, 0, Registered(0))
  {
    var first, s := ZeroFits();
    var write, written := ZeroWrites(s);
    var add, registered := ZeroAdds(written);
    Join(s, write, written, add);
    Join(Init(0), first, s, write + add);
    acts := first + (write + add);
  }

  /** The relay loop hangs on a request of 0, in some schedule, exactly when the bandwidth is 0. */
  lemma RelayHangsIff(bandwidth: U64)
    ensures (exists acts, t :: RelayVisits(bandwidth, acts, t, Registered(0))) <==> bandwidth == 0
  {
    if bandwidth == 0 {
      var acts := ZeroRegisters();
    } else {
      forall acts, t ensures !RelayVisits(bandwidth, acts, t, Registered(0)) {
        if RelayVisits(bandwidth, acts, t, Registered(0)) {
          RelayVisitsOnly(bandwidth, acts, t, Registered(0));
        }
      }
    }
  }
}
