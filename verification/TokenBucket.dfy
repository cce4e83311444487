/**
 The token bucket as one atomic object (pkg/core/ratelimiter.go, pkg/core/server.go): its unsigned
 64-bit arithmetic, what it grants, and when. Module `WaitProtocol` shows that the locks and the wait
 group implement this object.
 */
module TokenBucket {
  import opened Bytes

  const TWO_TO_THE_64: nat := 0x1_0000_0000_0000_0000

  type U64 = x: int | 0 <= x < TWO_TO_THE_64

  function Wrap(x: nat): U64 {
    x % TWO_TO_THE_64
  }

  /** The bandwidth shifted left by four bits, in 64-bit arithmetic. */
  function Capacity(bandwidth: U64): U64 {
    Wrap(bandwidth * 16)
  }

  function Saturate(tokens: U64, amount: U64, capacity: U64): (r: U64)
    ensures r <= capacity
  {
    var result := Wrap(tokens + amount);
    if result < capacity then result else capacity
  }

  /** The 64-bit arithmetic is exact for this bandwidth. */
  predicate Exact(bandwidth: U64) {
    17 * bandwidth < TWO_TO_THE_64
  }

  function Min(a: nat, b: nat): nat {
    if a <= b then a else b
  }

  lemma SaturateBounds(tokens: U64, bandwidth: U64)
    requires tokens <= Capacity(bandwidth)
    ensures Saturate(tokens, bandwidth, Capacity(bandwidth)) <= tokens + bandwidth
    ensures Exact(bandwidth) ==> Capacity(bandwidth) == 16 * bandwidth
    ensures Exact(bandwidth) ==>
              Saturate(tokens, bandwidth, Capacity(bandwidth)) == Min(tokens + bandwidth, 16 * bandwidth)
  {
  }

  /** Tokens held and the request that waits for them, if any. */
  datatype Bucket = Bucket(tokens: U64, pending: Option<U64>)

  /** One tick: saturate, then hand out the pending request if it is covered. A request of 0 never is. */
  function Tick(b: Bucket, bandwidth: U64): Bucket {
    var t := Saturate(b.tokens, bandwidth, Capacity(bandwidth));
    if b.pending.Some? && b.pending.value != 0 && t >= b.pending.value
    then Bucket(t - b.pending.value, None)
    else Bucket(t, b.pending)
  }

  function Granted(b: Bucket, bandwidth: U64): nat {
    if b.pending.Some? && Tick(b, bandwidth).pending.None? then b.pending.value else 0
  }

  /** The tokens that one tick discards because the bucket is full. */
  function Overflow(b: Bucket, bandwidth: U64): nat {
    if b.tokens + bandwidth > 16 * bandwidth then b.tokens + bandwidth - 16 * bandwidth else 0
  }

  // ----- The limiter object

  /**
   The fields of the limiter, with the wait group as its counter. The ticker holds `mutex` for the whole of
   `Add`, a caller holds `mutexWait` for the whole of its wait; the object is described between those sections.
   */
  class RateLimiter {
    const bandwidth: U64
    const capacity: U64
    var tokens: U64
    var waiting: U64
    var done: nat

    ghost predicate Valid()
      reads this
    {
      && capacity == Capacity(bandwidth)
      && tokens <= capacity
      && done <= 1
      && (waiting != 0 ==> done == 1)
    }

    ghost function Contents(): Bucket
      reads this
    {
      Bucket(tokens, if done == 0 then None else Some(waiting))
    }

    constructor (bandwidth: U64)
      ensures Valid() && this.bandwidth == bandwidth
      ensures Contents() == Bucket(0, None)
    {
      this.bandwidth := bandwidth;
      tokens := 0;
      capacity := Wrap(bandwidth * 16);
      waiting := 0;
      done := 0;
    }

    method Add(tokens: U64)
      requires Valid() && tokens == bandwidth
      modifies this
      ensures Valid()
      ensures Contents() == Tick(old(Contents()), bandwidth)
    {
      var result := Wrap(this.tokens + tokens);
      if result < capacity {
        this.tokens := result;
      } else {
        this.tokens := capacity;
      }
      if waiting != 0 && this.tokens >= waiting {
        if this.tokens > waiting {
          this.tokens := this.tokens - waiting;
        } else {
          this.tokens := 0;
        }
        waiting := 0;
        done := done - 1;
      }
    }

    /** The ticker thread, for the first `ticks` periods of its endless loop. */
    method Run(ticks: nat)
      requires Valid()
      modifies this
      ensures Valid()
      ensures Contents() == Ticks(old(Contents()), bandwidth, ticks)
    {
      for i := 0 to ticks
        invariant Valid()
        invariant Contents() == Ticks(old(Contents()), bandwidth, i)
      {
        Add(bandwidth);
      }
    }

    /** `Wait` up to the point where it blocks: refused for good, or registered. */
    method Register(tokens: U64) returns (outOfCapacity: bool)
      requires Valid() && done == 0
      modifies this
      ensures Valid()
      ensures outOfCapacity <==> tokens > Capacity(bandwidth)
      ensures Contents() == if outOfCapacity then old(Contents()) else Bucket(old(this.tokens), Some(tokens))
    {
      if tokens > capacity {
        return true;
      }
      waiting := tokens;
      done := done + 1;
      return false;
    }

    method Available() returns (r: U64)
      requires Valid()
      ensures r == Contents().tokens <= Capacity(bandwidth)
    {
      r := tokens;
    }
  }

  function Ticks(b: Bucket, bandwidth: U64, k: nat): Bucket {
    if k == 0 then b else Tick(Ticks(b, bandwidth, k - 1), bandwidth)
  }

  // ----- Exact arithmetic

  /** The tokens of an idle bucket, `k` ticks after its creation. */
  function IdleTokens(bandwidth: U64, k: nat): U64 {
    Ticks(Bucket(0, None), bandwidth, k).tokens
  }

  lemma {:induction false} IdleStaysIdle(bandwidth: U64, k: nat)
    ensures Ticks(Bucket(0, None), bandwidth, k).pending == None
    ensures IdleTokens(bandwidth, k) <= Capacity(bandwidth)
  {
    if k > 0 {
      IdleStaysIdle(bandwidth, k - 1);
    }
  }

  /** Multiples of the bandwidth before and after the sixteenth. */
  lemma MultiplesAround(bandwidth: nat, k: nat)
    requires k > 0
    ensures k * bandwidth == (k - 1) * bandwidth + bandwidth
    ensures k <= 16 ==> k * bandwidth <= 16 * bandwidth
    ensures k > 16 ==> 16 * bandwidth <= (k - 1) * bandwidth
  {
    if k <= 16 {
      assert (16 - k) * bandwidth >= 0;
    } else {
      assert (k - 17) * bandwidth >= 0;
    }
  }

  lemma {:induction false} IdleExact(bandwidth: U64, k: nat)
    requires Exact(bandwidth)
    ensures IdleTokens(bandwidth, k) == Min(k * bandwidth, 16 * bandwidth)
  {
    if k > 0 {
      IdleExact(bandwidth, k - 1);
      IdleStaysIdle(bandwidth, k - 1);
      SaturateBounds(IdleTokens(bandwidth, k - 1), bandwidth);
      MultiplesAround(bandwidth, k);
      var before, multiple := (k - 1) * bandwidth, k * bandwidth;
      assert IdleTokens(bandwidth, k) == Min(Min(before, 16 * bandwidth) + bandwidth, 16 * bandwidth);
    }
  }

  /** The bucket fills as designed, at every moment, exactly when 17 times the bandwidth fits in 64 bits. */
  lemma ExactArithmeticIff(bandwidth: U64)
    ensures (forall k: nat :: IdleTokens(bandwidth, k) == Min(k * bandwidth, 16 * bandwidth)) <==> Exact(bandwidth)
  {
    if Exact(bandwidth) {
      forall k: nat ensures IdleTokens(bandwidth, k) == Min(k * bandwidth, 16 * bandwidth) {
        IdleExact(bandwidth, k);
      }
    } else if IdleTokens(bandwidth, 16) == 16 * bandwidth {
      IdleStaysIdle(bandwidth, 16);
      assert IdleTokens(bandwidth, 17) == Saturate(16 * bandwidth, bandwidth, Capacity(bandwidth));
      assert IdleTokens(bandwidth, 17) != Min(17 * bandwidth, 16 * bandwidth);
    } else {
      assert IdleTokens(bandwidth, 16) != Min(16 * bandwidth, 16 * bandwidth);
    }
  }

  // ----- Runs

  datatype Event = TickEvent | RegisterEvent(n: U64)

  /** A bucket with the totals of its history. */
  datatype Ledger = Ledger(bucket: Bucket, ticks: nat, granted: nat, discarded: nat)

  const EMPTY_LEDGER := Ledger(Bucket(0, None), 0, 0, 0)

  function Record(l: Ledger, e: Event, bandwidth: U64): Ledger {
    match e
    case TickEvent =>
      Ledger(Tick(l.bucket, bandwidth), l.ticks + 1,
             l.granted + Granted(l.bucket, bandwidth), l.discarded + Overflow(l.bucket, bandwidth))
    case RegisterEvent(n) =>
      l.(bucket := Bucket(l.bucket.tokens, Some(n)))
  }

  /** A request is registered only when none is pending, and only within the capacity. */
  predicate Allowed(b: Bucket, e: Event, bandwidth: U64) {
    e.RegisterEvent? ==> b.pending.None? && e.n <= Capacity(bandwidth)
  }

  /** The ledger after a run of events, if every event was allowed. */
  function RunEvents(l: Ledger, es: seq<Event>, bandwidth: U64): Option<Ledger> {
    if es == [] then Some(l)
    else
      var before := RunEvents(l, es[..|es| - 1], bandwidth);
      if before.Some? && Allowed(before.value.bucket, es[|es| - 1], bandwidth)
      then Some(Record(before.value, es[|es| - 1], bandwidth))
      else None
  }

  function TickCount(es: seq<Event>): nat {
    if es == [] then 0 else TickCount(es[..|es| - 1]) + if es[|es| - 1].TickEvent? then 1 else 0
  }

  predicate Sound(l: Ledger, bandwidth: U64) {
    && l.bucket.tokens <= Capacity(bandwidth)
    && (l.bucket.pending.Some? ==> l.bucket.pending.value <= Capacity(bandwidth))
  }

  /** What every window of `k` ticks keeps; `budget` and `window` are `k` and `k - 1` times the bandwidth. */
  predicate LedgerInv(l: Ledger, start: Ledger, bandwidth: U64, k: nat, budget: int, window: int) {
    && Sound(l, bandwidth)
    && l.ticks == start.ticks + k && start.granted <= l.granted
    && (k == 0 ==> l.granted == start.granted)
    && l.granted + l.bucket.tokens <= start.granted + start.bucket.tokens + budget
    && (k > 0 ==> l.granted + l.bucket.tokens <= start.granted + Capacity(bandwidth) + window)
    && (Exact(bandwidth) ==>
          l.granted + l.bucket.tokens + l.discarded
          == start.granted + start.bucket.tokens + start.discarded + budget)
  }

  lemma TickKeeps(l: Ledger, start: Ledger, bandwidth: U64, k: nat, budget: int, window: int)
    requires LedgerInv(l, start, bandwidth, k, budget, window)
    requires k > 0 ==> budget == window + bandwidth
    ensures LedgerInv(Record(l, TickEvent, bandwidth), start, bandwidth, k + 1, budget + bandwidth,
                      if k == 0 then 0 else budget)
  {
    SaturateBounds(l.bucket.tokens, bandwidth);
    var l' := Record(l, TickEvent, bandwidth);
    assert l'.granted + l'.bucket.tokens == l.granted + Saturate(l.bucket.tokens, bandwidth, Capacity(bandwidth));
  }

  lemma OneMoreBandwidth(k: int, bandwidth: nat)
    ensures (k + 1) * bandwidth == k * bandwidth + bandwidth
  {
  }

  lemma TickKeepsProducts(l: Ledger, start: Ledger, bandwidth: U64, k: nat)
    requires LedgerInv(l, start, bandwidth, k, k * bandwidth, (k - 1) * bandwidth)
    ensures LedgerInv(Record(l, TickEvent, bandwidth), start, bandwidth, k + 1, (k + 1) * bandwidth, k * bandwidth)
  {
    OneMoreBandwidth(k - 1, bandwidth);
    OneMoreBandwidth(k, bandwidth);
    TickKeeps(l, start, bandwidth, k, k * bandwidth, (k - 1) * bandwidth);
  }

  /**
   Conservation and rate over any window of any run: tokens granted, held and discarded are exactly the ticks
   times the bandwidth, and a window of `k >= 1` ticks grants at most the capacity and `k - 1` bandwidths.
   */
  lemma {:induction false} WindowBounds(start: Ledger, es: seq<Event>, bandwidth: U64)
    requires Sound(start, bandwidth) && RunEvents(start, es, bandwidth).Some?
    ensures var k := TickCount(es);
            LedgerInv(RunEvents(start, es, bandwidth).value, start, bandwidth, k, k * bandwidth, (k - 1) * bandwidth)
    decreases |es|
  {
    if es != [] {
      var es', e := es[..|es| - 1], es[|es| - 1];
      WindowBounds(start, es', bandwidth);
      if e.TickEvent? {
        TickKeepsProducts(RunEvents(start, es', bandwidth).value, start, bandwidth, TickCount(es'));
      }
    }
  }

  /** A window of at least one tick grants at most the capacity and one bandwidth for each further tick. */
  lemma WindowRate(start: Ledger, es: seq<Event>, bandwidth: U64)
    requires Sound(start, bandwidth) && RunEvents(start, es, bandwidth).Some? && TickCount(es) > 0
    ensures RunEvents(start, es, bandwidth).value.granted - start.granted <=
            Capacity(bandwidth) + (TickCount(es) - 1) * bandwidth
  {
    WindowBounds(start, es, bandwidth);
  }

  /** From creation: at most one bandwidth a tick, never more than the capacity held. */
  lemma RateFromCreation(es: seq<Event>, bandwidth: U64)
    requires RunEvents(EMPTY_LEDGER, es, bandwidth).Some?
    ensures var end := RunEvents(EMPTY_LEDGER, es, bandwidth).value;
            && end.granted <= TickCount(es) * bandwidth
            && end.bucket.tokens <= Capacity(bandwidth)
            && (Exact(bandwidth) ==>
                  end.granted + end.bucket.tokens + end.discarded == TickCount(es) * bandwidth)
  {
    WindowBounds(EMPTY_LEDGER, es, bandwidth);
  }

  // ----- Service time

  function CeilDiv(a: nat, b: nat): nat
    requires b > 0
  {
    (a + b - 1) / b
  }

  /** The tick at which a request of `n` that registers when `t` tokens are held is granted. */
  function ServiceTick(n: U64, t: U64, bandwidth: U64): nat
    requires bandwidth > 0
  {
    if n <= t + bandwidth then 1 else CeilDiv(n - t, bandwidth)
  }

  lemma DivBounds(x: nat, b: nat)
    requires b > 0
    ensures x / b * b <= x < x / b * b + b
  {
  }

  lemma MultiplesGrow(i: int, j: int, b: nat)
    requires i <= j
    ensures i * b <= j * b
  {
    assert (j - i) * b >= 0;
  }

  lemma CeilDivLeast(a: nat, b: nat, j: nat)
    requires b > 0
    ensures a <= j * b <==> CeilDiv(a, b) <= j
  {
    var c := CeilDiv(a, b);
    DivBounds(a + b - 1, b);
    if c <= j {
      MultiplesGrow(c, j, b);
    } else {
      MultiplesGrow(j + 1, c, b);
      OneMoreBandwidth(j, b);
    }
  }

  lemma ServiceTickIsLeast(n: U64, t: U64, bandwidth: U64, j: nat)
    requires bandwidth > 0 && j > 0
    ensures n <= t + j * bandwidth <==> ServiceTick(n, t, bandwidth) <= j
  {
    if n <= t + bandwidth {
      assert (j - 1) * bandwidth >= 0;
    } else {
      CeilDivLeast(n - t, bandwidth, j);
    }
  }

  /** A tick that does not yet cover the request adds exactly the bandwidth; one that covers it grants it. */
  lemma TickTowards(b: Bucket, bandwidth: U64)
    requires Exact(bandwidth) && b.tokens <= Capacity(bandwidth)
    requires b.pending.Some? && 0 < b.pending.value <= Capacity(bandwidth)
    ensures b.tokens + bandwidth < b.pending.value ==>
              Tick(b, bandwidth) == Bucket(b.tokens + bandwidth, b.pending)
    ensures b.tokens + bandwidth >= b.pending.value ==> Tick(b, bandwidth).pending == None
  {
    SaturateBounds(b.tokens, bandwidth);
  }

  /** How many ticks the pending request has still to wait, and what it asks for. */
  function Remaining(b: Bucket, bandwidth: U64): nat
    requires bandwidth > 0
  {
    if b.pending.None? then 0 else ServiceTick(b.pending.value, b.tokens, bandwidth)
  }

  function Pending(b: Bucket): nat {
    if b.pending.None? then 0 else b.pending.value
  }

  lemma RemainingIsPositive(b: Bucket, bandwidth: U64)
    requires bandwidth > 0 && b.pending.Some?
    ensures Remaining(b, bandwidth) > 0
  {
    if b.pending.value > b.tokens + bandwidth {
      CeilDivLeast(b.pending.value - b.tokens, bandwidth, 0);
    }
  }

  lemma OneTickShift(n: U64, t: U64, bandwidth: U64, j: nat)
    requires bandwidth > 0 && t + bandwidth < n && j > 0
    ensures ServiceTick(n, t, bandwidth) <= j + 1 <==> ServiceTick(n, t + bandwidth, bandwidth) <= j
  {
    ServiceTickIsLeast(n, t, bandwidth, j + 1);
    ServiceTickIsLeast(n, t + bandwidth, bandwidth, j);
    OneMoreBandwidth(j, bandwidth);
  }

  /** One bandwidth more in the bucket is one tick less to wait. */
  lemma OneTickLess(n: U64, t: U64, bandwidth: U64)
    requires bandwidth > 0 && t + bandwidth < n
    ensures ServiceTick(n, t, bandwidth) == ServiceTick(n, t + bandwidth, bandwidth) + 1
  {
    var s, s' := ServiceTick(n, t, bandwidth), ServiceTick(n, t + bandwidth, bandwidth);
    RemainingIsPositive(Bucket(t + bandwidth, Some(n)), bandwidth);
    ServiceTickIsLeast(n, t, bandwidth, 1);
    OneTickShift(n, t, bandwidth, s');
    OneTickShift(n, t, bandwidth, s - 1);
  }

  lemma TickNearer(b: Bucket, bandwidth: U64)
    requires Exact(bandwidth) && bandwidth > 0 && b.tokens <= Capacity(bandwidth)
    requires b.pending.Some? && 0 < b.pending.value <= Capacity(bandwidth)
    ensures Remaining(b, bandwidth) == Remaining(Tick(b, bandwidth), bandwidth) + 1
    ensures Granted(b, bandwidth) + Pending(Tick(b, bandwidth)) == Pending(b)
  {
    TickTowards(b, bandwidth);
    if b.tokens + bandwidth < b.pending.value {
      OneTickLess(b.pending.value, b.tokens, bandwidth);
    }
  }

  /** Until it is covered a request waits while tokens accumulate; it is granted at the first tick that covers it. */
  lemma {:induction false} ServedExactly(b: Bucket, bandwidth: U64, j: nat)
    requires Exact(bandwidth) && bandwidth > 0 && b.tokens <= Capacity(bandwidth)
    requires b.pending.Some? && 0 < b.pending.value <= Capacity(bandwidth)
    ensures var s := ServiceTick(b.pending.value, b.tokens, bandwidth);
            var after := Ticks(b, bandwidth, j);
            && (j < s ==> after.tokens == b.tokens + j * bandwidth && after.pending == b.pending)
            && (j < s ==> Remaining(after, bandwidth) == s - j)
            && (j >= s ==> after.pending == None)
  {
    RemainingIsPositive(b, bandwidth);
    if j > 0 {
      ServedExactly(b, bandwidth, j - 1);
      var before := Ticks(b, bandwidth, j - 1);
      if j - 1 < Remaining(b, bandwidth) {
        OneMoreBandwidth(j - 1, bandwidth);
        TicksBounded(b, bandwidth, j - 1);
        OneTickOn(before, bandwidth);
      }
    }
  }

  /** One tick on: a bandwidth more and one tick less to wait, or granted. */
  lemma OneTickOn(b: Bucket, bandwidth: U64)
    requires Exact(bandwidth) && bandwidth > 0 && b.tokens <= Capacity(bandwidth)
    requires b.pending.Some? && 0 < b.pending.value <= Capacity(bandwidth)
    ensures var r := Remaining(b, bandwidth);
            && (r == 1 ==> Tick(b, bandwidth).pending == None)
            && (r > 1 ==> Tick(b, bandwidth) == Bucket(b.tokens + bandwidth, b.pending)
                          && Remaining(Tick(b, bandwidth), bandwidth) == r - 1)
  {
    TickNearer(b, bandwidth);
    TickTowards(b, bandwidth);
    if Tick(b, bandwidth).pending.Some? {
      RemainingIsPositive(Tick(b, bandwidth), bandwidth);
    }
  }

  lemma {:induction false} TicksBounded(b: Bucket, bandwidth: U64, k: nat)
    requires b.tokens <= Capacity(bandwidth)
    ensures Ticks(b, bandwidth, k).tokens <= Capacity(bandwidth)
  {
    if k > 0 {
      TicksBounded(b, bandwidth, k - 1);
    }
  }

  lemma ServedWithinSixteen(n: U64, t: U64, bandwidth: U64)
    requires bandwidth > 0 && Exact(bandwidth) && 0 < n <= Capacity(bandwidth)
    ensures 1 <= ServiceTick(n, t, bandwidth) <= CeilDiv(n, bandwidth) <= 16
  {
    ServiceTickIsLeast(n, t, bandwidth, 16);
    CeilDivLeast(n, bandwidth, 16);
    CeilDivLeast(n, bandwidth, CeilDiv(n, bandwidth));
    assert CeilDiv(n, bandwidth) > 0;
    ServiceTickIsLeast(n, t, bandwidth, CeilDiv(n, bandwidth));
  }

  /** Pending up to its service tick, and not from there on. */
  lemma PendingUntilServed(b: Bucket, bandwidth: U64, j: nat)
    requires Exact(bandwidth) && bandwidth > 0 && b.tokens <= Capacity(bandwidth)
    requires b.pending.Some? && 0 < b.pending.value <= Capacity(bandwidth)
    ensures j < Remaining(b, bandwidth) ==> Ticks(b, bandwidth, j).pending == b.pending
    ensures j >= Remaining(b, bandwidth) ==> Ticks(b, bandwidth, j).pending == None
  {
    ServedExactly(b, bandwidth, j);
  }

  /**
   In every run that starts with a request pending, whatever the run does: no tick before the service tick grants
   it, and at the service tick it has been granted.
   */
  lemma {:induction false} ServedInEveryRun(start: Ledger, es: seq<Event>, bandwidth: U64)
    requires Exact(bandwidth) && bandwidth > 0 && Sound(start, bandwidth)
    requires start.bucket.pending.Some? && 0 < start.bucket.pending.value
    requires RunEvents(start, es, bandwidth).Some?
    ensures var n := start.bucket.pending.value;
            var s := ServiceTick(n, start.bucket.tokens, bandwidth);
            var end := RunEvents(start, es, bandwidth).value;
            && (TickCount(es) < s ==> end.bucket == Ticks(start.bucket, bandwidth, TickCount(es))
                                      && end.bucket.pending == Some(n) && end.granted == start.granted)
            && (TickCount(es) >= s ==> end.granted >= start.granted + n)
    decreases |es|
  {
    RemainingIsPositive(start.bucket, bandwidth);
    PendingUntilServed(start.bucket, bandwidth, TickCount(es));
    if es != [] {
      var es' := es[..|es| - 1];
      ServedInEveryRun(start, es', bandwidth);
      PendingUntilServed(start.bucket, bandwidth, TickCount(es'));
    }
  }

  /** A request of 0 that has registered stays pending for ever, and nothing is granted after it. */
  lemma {:induction false} ZeroIsNeverServed(start: Ledger, es: seq<Event>, bandwidth: U64)
    requires start.bucket.pending == Some(0) && RunEvents(start, es, bandwidth).Some?
    ensures var end := RunEvents(start, es, bandwidth).value;
            end.bucket.pending == Some(0) && end.granted == start.granted
    decreases |es|
  {
    if es != [] {
      ZeroIsNeverServed(start, es[..|es| - 1], bandwidth);
    }
  }

  // ----- A line of callers

  /** The requests that a run registers, in their order. */
  function Requests(es: seq<Event>): seq<U64> {
    if es == [] then []
    else if es[|es| - 1].RegisterEvent? then Requests(es[..|es| - 1]) + [es[|es| - 1].n]
    else Requests(es[..|es| - 1])
  }

  function Total(ns: seq<U64>): nat {
    if ns == [] then 0 else Total(ns[..|ns| - 1]) + ns[|ns| - 1]
  }

  function TotalCeil(ns: seq<U64>, bandwidth: U64): nat
    requires bandwidth > 0
  {
    if ns == [] then 0 else TotalCeil(ns[..|ns| - 1], bandwidth) + CeilDiv(ns[|ns| - 1], bandwidth)
  }

  predicate Positive(ns: seq<U64>) {
    forall i | 0 <= i < |ns| :: ns[i] > 0
  }

  /** The ticks of a run that find a request pending. */
  function BusyTicks(start: Ledger, es: seq<Event>, bandwidth: U64): nat {
    if es == [] then 0
    else
      var es' := es[..|es| - 1];
      var before := RunEvents(start, es', bandwidth);
      BusyTicks(start, es', bandwidth)
      + if es[|es| - 1].TickEvent? && before.Some? && before.value.bucket.pending.Some? then 1 else 0
  }

  /** What a line keeps: ticks gone by and still to come are within the quotients; requests are granted or pending. */
  predicate LineInv(l: Ledger, start: Ledger, ticks: nat, ns: seq<U64>, bandwidth: U64)
    requires bandwidth > 0
  {
    && Sound(l, bandwidth) && (l.bucket.pending.Some? ==> l.bucket.pending.value > 0)
    && ticks + Remaining(l.bucket, bandwidth) <= Remaining(start.bucket, bandwidth) + TotalCeil(ns, bandwidth)
    && l.granted + Pending(l.bucket) == start.granted + Pending(start.bucket) + Total(ns)
    && TotalCeil(ns, bandwidth) <= 16 * |ns|
  }

  lemma LineTick(l: Ledger, start: Ledger, ticks: nat, ns: seq<U64>, bandwidth: U64)
    requires Exact(bandwidth) && bandwidth > 0 && LineInv(l, start, ticks, ns, bandwidth) && l.bucket.pending.Some?
    ensures LineInv(Record(l, TickEvent, bandwidth), start, ticks + 1, ns, bandwidth)
  {
    TickNearer(l.bucket, bandwidth);
  }

  lemma LineIdles(l: Ledger, start: Ledger, ticks: nat, ns: seq<U64>, bandwidth: U64)
    requires bandwidth > 0 && LineInv(l, start, ticks, ns, bandwidth) && l.bucket.pending.None?
    ensures LineInv(Record(l, TickEvent, bandwidth), start, ticks, ns, bandwidth)
  {
  }

  lemma LineRegister(l: Ledger, start: Ledger, ticks: nat, ns: seq<U64>, bandwidth: U64, n: U64)
    requires Exact(bandwidth) && bandwidth > 0 && LineInv(l, start, ticks, ns, bandwidth)
    requires Allowed(l.bucket, RegisterEvent(n), bandwidth) && n > 0
    ensures LineInv(Record(l, RegisterEvent(n), bandwidth), start, ticks, ns + [n], bandwidth)
  {
    ServedWithinSixteen(n, l.bucket.tokens, bandwidth);
    assert (ns + [n])[..|ns|] == ns;
  }

  lemma {:induction false} LineKeeps(start: Ledger, es: seq<Event>, bandwidth: U64)
    requires Exact(bandwidth) && bandwidth > 0 && Sound(start, bandwidth)
    requires start.bucket.pending.Some? ==> start.bucket.pending.value > 0
    requires RunEvents(start, es, bandwidth).Some? && Positive(Requests(es))
    ensures var end := RunEvents(start, es, bandwidth).value;
            LineInv(end, start, BusyTicks(start, es, bandwidth), Requests(es), bandwidth)
    decreases |es|
  {
    if es != [] {
      var es', e := es[..|es| - 1], es[|es| - 1];
      assert Positive(Requests(es')) by {
        assert forall i | 0 <= i < |Requests(es')| :: Requests(es)[i] == Requests(es')[i];
      }
      LineKeeps(start, es', bandwidth);
      var l := RunEvents(start, es', bandwidth).value;
      var ticks, ns := BusyTicks(start, es', bandwidth), Requests(es');
      if e.TickEvent? {
        if l.bucket.pending.Some? {
          LineTick(l, start, ticks, ns, bandwidth);
        } else {
          LineIdles(l, start, ticks, ns, bandwidth);
        }
      } else {
        assert Requests(es)[|ns|] == e.n;
        LineRegister(l, start, ticks, ns, bandwidth, e.n);
      }
    }
  }

  /**
   `m` requests, in every run whatever is interleaved: the ticks that find a request pending, and those that the present
   one has still to wait, are at most the sum of the rounded-up quotients, at most `16 * m`; what has been requested is
   granted or pending, and nothing is pending any more once so many such ticks have passed.
   */
  lemma LineIsServed(start: Ledger, es: seq<Event>, bandwidth: U64)
    requires Exact(bandwidth) && bandwidth > 0 && Sound(start, bandwidth) && start.bucket.pending.None?
    requires RunEvents(start, es, bandwidth).Some? && Positive(Requests(es))
    ensures var end, ns := RunEvents(start, es, bandwidth).value, Requests(es);
            var busy := BusyTicks(start, es, bandwidth);
            && busy + Remaining(end.bucket, bandwidth) <= TotalCeil(ns, bandwidth) <= 16 * |ns|
            && end.granted + Pending(end.bucket) == start.granted + Total(ns)
            && (busy == TotalCeil(ns, bandwidth) ==> end.bucket.pending.None?)
  {
    LineKeeps(start, es, bandwidth);
    var b := RunEvents(start, es, bandwidth).value.bucket;
    if b.pending.Some? {
      RemainingIsPositive(b, bandwidth);
    }
  }
}
