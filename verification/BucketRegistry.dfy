/**
 The registry of token buckets (pkg/core/server.go): concurrent calls for one user look the bucket up, create one
 on a miss, and store it, as three separate steps, so several buckets can come to exist for the user.
 */
module BucketRegistry {
  import opened Bytes
  import opened TokenBucket

  // ----- The object, for one call at a time

  class Server {
    var buckets: map<string, RateLimiter>

    constructor ()
      ensures buckets == map[]
    {
      buckets := map[];
    }

    /** `limit` is the bandwidth limit of the user's plan, if the user is found. */
    method GetBucket(username: string, limit: Option<U64>) returns (r: Option<RateLimiter>)
      modifies this
      ensures username in old(buckets) ==> r == Some(old(buckets)[username]) && buckets == old(buckets)
      ensures username !in old(buckets) && limit.None? ==> r == None && buckets == old(buckets)
      ensures username !in old(buckets) && limit.Some? ==>
                && r.Some? && fresh(r.value) && r.value.Valid()
                && r.value.bandwidth == limit.value / 2 && r.value.Contents() == Bucket(0, None)
                && buckets == old(buckets)[username := r.value]
    {
      if username in buckets {
        return Some(buckets[username]);
      }
      if limit.None? {
        return None;
      }
      var bucket := new RateLimiter(limit.value / 2);
      buckets := buckets[username := bucket];
      return Some(bucket);
    }
  }

  // ----- The protocol

  type Tid = nat
  type BucketId = nat

  /** Where a call stands; `Found` has its bucket to return. */
  datatype Pc = Outside | Missed | Created(b: BucketId) | Found(b: BucketId)

  /** Every bucket ever created for the user has a ledger. */
  datatype State = State(stored: Option<BucketId>, ledgers: seq<Ledger>, pcs: map<Tid, Pc>)

  const INIT := State(None, [], map[])

  function At(s: State, t: Tid): Pc {
    if t in s.pcs then s.pcs[t] else Outside
  }

  function Goto(s: State, t: Tid, pc: Pc): State {
    s.(pcs := s.pcs[t := pc])
  }

  datatype Action =
    | Lookup(t: Tid)
    | Create(t: Tid, userFound: bool)
    | Store(t: Tid)
    | Leave(t: Tid)
    | Run(b: BucketId, e: Event)     // a tick or a registration at one of the buckets

  function Do(s: State, bandwidth: U64, a: Action): Option<State> {
    match a
    case Lookup(t) =>
      if !At(s, t).Outside? then None
      else Some(Goto(s, t, if s.stored.Some? then Found(s.stored.value) else Missed))
    case Create(t, userFound) =>
      if !At(s, t).Missed? then None
      else if userFound then Some(Goto(s, t, Created(|s.ledgers|)).(ledgers := s.ledgers + [EMPTY_LEDGER]))
      else Some(Goto(s, t, Outside))
    case Store(t) =>
      if At(s, t).Created? then Some(Goto(s, t, Found(At(s, t).b)).(stored := Some(At(s, t).b))) else None
    case Leave(t) =>
      if At(s, t).Found? then Some(Goto(s, t, Outside)) else None
    case Run(b, e) =>
      if b < |s.ledgers| && Allowed(s.ledgers[b].bucket, e, bandwidth)
      then Some(s.(ledgers := s.ledgers[b := Record(s.ledgers[b], e, bandwidth)]))
      else None
  }

  function Exec(s: State, bandwidth: U64, acts: seq<Action>): Option<State> {
    if acts == [] then Some(s)
    else
      match Exec(s, bandwidth, acts[..|acts| - 1])
      case Some(s') => Do(s', bandwidth, acts[|acts| - 1])
      case None => None
  }

  /** Once a bucket is stored for the user, one stays stored. */
  lemma {:induction false} PresenceIsStable(s: State, bandwidth: U64, acts: seq<Action>)
    requires s.stored.Some? && Exec(s, bandwidth, acts).Some?
    ensures Exec(s, bandwidth, acts).value.stored.Some?
    decreases |acts|
  {
    if acts != [] {
      PresenceIsStable(s, bandwidth, acts[..|acts| - 1]);
    }
  }

  lemma Extend(s: State, bandwidth: U64, acts: seq<Action>, mid: State, a: Action, s': State)
    requires Exec(s, bandwidth, acts) == Some(mid) && Do(mid, bandwidth, a) == Some(s')
    ensures Exec(s, bandwidth, acts + [a]) == Some(s')
  {
    assert (acts + [a])[..|acts|] == acts;
  }

  /**
   A call that nobody disturbs: a stored bucket is found and nothing changes; otherwise a new bucket is created, stored
   and found, unless the user is not, and then nothing changes either.
   */
  lemma CallRuns(s: State, bandwidth: U64, t: Tid, userFound: bool) returns (acts: seq<Action>, s': State)
    requires At(s, t).Outside?
    ensures Exec(s, bandwidth, acts) == Some(s')
    ensures acts == [Lookup(t)] || acts == [Lookup(t), Create(t, userFound)]
            || acts == [Lookup(t), Create(t, userFound), Store(t)]
    ensures s.stored.Some? ==> s' == Goto(s, t, Found(s.stored.value))
    ensures s.stored.None? && !userFound ==> s'.stored.None? && s'.ledgers == s.ledgers && At(s', t).Outside?
    ensures s.stored.None? && userFound ==>
              var b := |s.ledgers|;
              s'.stored == Some(b) && s'.ledgers == s.ledgers + [EMPTY_LEDGER] && At(s', t) == Found(b)
    ensures forall u: Tid | u != t :: At(s', u) == At(s, u)
  {
    var s1 := Do(s, bandwidth, Lookup(t)).value;
    Extend(s, bandwidth, [], s, Lookup(t), s1);
    assert [] + [Lookup(t)] == [Lookup(t)];
    acts, s' := [Lookup(t)], s1;
    if s.stored.None? {
      var s2 := Do(s1, bandwidth, Create(t, userFound)).value;
      Extend(s, bandwidth, acts, s1, Create(t, userFound), s2);
      acts, s' := acts + [Create(t, userFound)], s2;
      if userFound {
        var s3 := Do(s2, bandwidth, Store(t)).value;
        Extend(s, bandwidth, acts, s2, Store(t), s3);
        acts, s' := acts + [Store(t)], s3;
      }
    }
  }

  // ----- When another bucket can come to exist

  /** A bucket is stored, and no call has missed it without having created its own yet. */
  ghost predicate Closed(s: State) {
    s.stored.Some? && forall t: Tid :: !At(s, t).Missed?
  }

  lemma ClosedStep(s: State, bandwidth: U64, a: Action)
    requires Closed(s) && Do(s, bandwidth, a).Some?
    ensures Closed(Do(s, bandwidth, a).value) && |Do(s, bandwidth, a).value.ledgers| == |s.ledgers|
  {
    var s' := Do(s, bandwidth, a).value;
    if a.Run? {
      assert forall t: Tid :: At(s', t) == At(s, t);
    } else {
      assert !At(s, a.t).Missed?;
      assert forall t: Tid | t != a.t :: At(s', t) == At(s, t);
    }
  }

  /** Calls that have created their bucket may still store it, but none is created any more. */
  lemma {:induction false} ClosedRun(s: State, bandwidth: U64, acts: seq<Action>)
    requires Closed(s) && Exec(s, bandwidth, acts).Some?
    ensures var s' := Exec(s, bandwidth, acts).value;
            Closed(s') && |s'.ledgers| == |s.ledgers|
    decreases |acts|
  {
    if acts != [] {
      var acts' := acts[..|acts| - 1];
      ClosedRun(s, bandwidth, acts');
      ClosedStep(Exec(s, bandwidth, acts').value, bandwidth, acts[|acts| - 1]);
    }
  }

  /** Finitely many calls have begun, so some thread is outside. */
  lemma SomeThreadOutside(s: State) returns (t: Tid)
    ensures At(s, t).Outside?
  {
    t := AboveAll(s.pcs.Keys);
  }

  lemma {:induction false} AboveAll(calls: set<Tid>) returns (t: Tid)
    ensures forall u | u in calls :: u < t
    decreases calls
  {
    if calls == {} {
      t := 0;
    } else {
      var u :| u in calls;
      var above := AboveAll(calls - {u});
      t := if above > u then above else u + 1;
      assert forall v | v in calls :: v == u || v in calls - {u};
    }
  }

  /** A call that has missed creates a bucket of its own. */
  lemma MissCreates(s: State, bandwidth: U64, t: Tid) returns (s': State)
    requires At(s, t).Missed?
    ensures Do(s, bandwidth, Create(t, true)) == Some(s')
    ensures s' == Goto(s, t, Created(|s.ledgers|)).(ledgers := s.ledgers + [EMPTY_LEDGER])
  {
    s' := Do(s, bandwidth, Create(t, true)).value;
  }

  /** The run creates at least one bucket more. */
  predicate CreatesMore(s: State, bandwidth: U64, acts: seq<Action>) {
    Exec(s, bandwidth, acts).Some? && |Exec(s, bandwidth, acts).value.ledgers| > |s.ledgers|
  }

  lemma OneMore(s: State, bandwidth: U64) returns (acts: seq<Action>)
    requires !Closed(s)
    ensures CreatesMore(s, bandwidth, acts)
  {
    if t: Tid :| At(s, t).Missed? {
      var s' := MissCreates(s, bandwidth, t);
      Extend(s, bandwidth, [], s, Create(t, true), s');
      acts := [] + [Create(t, true)];
    } else {
      var t := SomeThreadOutside(s);
      var missed := Goto(s, t, Missed);
      Extend(s, bandwidth, [], s, Lookup(t), missed);
      var s' := MissCreates(missed, bandwidth, t);
      Extend(s, bandwidth, [] + [Lookup(t)], missed, Create(t, true), s');
      acts := [] + [Lookup(t)] + [Create(t, true)];
    }
  }

  /**
   Another bucket can come to exist for the user exactly when none is stored, or some call has missed and not created
   its own yet.
   */
  lemma AnotherBucketIff(s: State, bandwidth: U64)
    ensures (exists acts :: CreatesMore(s, bandwidth, acts)) <==>
            s.stored.None? || exists t: Tid :: At(s, t).Missed?
  {
    if Closed(s) {
      forall acts ensures !CreatesMore(s, bandwidth, acts) {
        if CreatesMore(s, bandwidth, acts) {
          ClosedRun(s, bandwidth, acts);
        }
      }
    } else {
      var acts := OneMore(s, bandwidth);
    }
  }

  // ----- When the stored bucket is the last word

  /** No call is between its miss and its store. */
  ghost predicate Settled(s: State, b: BucketId) {
    s.stored == Some(b) && Closed(s) && forall t: Tid :: !At(s, t).Created?
  }

  lemma SettledStep(s: State, bandwidth: U64, b: BucketId, a: Action)
    requires Settled(s, b) && Do(s, bandwidth, a).Some?
    ensures Settled(Do(s, bandwidth, a).value, b)
    ensures forall t: Tid :: At(s, t).Outside? || At(s, t) == Found(b) ==>
                             At(Do(s, bandwidth, a).value, t).Outside? || At(Do(s, bandwidth, a).value, t) == Found(b)
  {
    var s' := Do(s, bandwidth, a).value;
    ClosedStep(s, bandwidth, a);
    if !a.Run? {
      assert !At(s, a.t).Missed? && !At(s, a.t).Created?;
      assert forall t: Tid | t != a.t :: At(s', t) == At(s, t);
    } else {
      assert forall t: Tid :: At(s', t) == At(s, t);
    }
  }

  /**
   After the last call in flight has stored its bucket, that bucket stays stored, no other is ever created, and every
   call that begins later can only return it.
   */
  lemma {:induction false} LaterCallsAgree(s: State, bandwidth: U64, b: BucketId, acts: seq<Action>, t: Tid)
    requires Settled(s, b) && At(s, t).Outside? && Exec(s, bandwidth, acts).Some?
    ensures var s' := Exec(s, bandwidth, acts).value;
            Settled(s', b) && |s'.ledgers| == |s.ledgers| && (At(s', t).Outside? || At(s', t) == Found(b))
    decreases |acts|
  {
    ClosedRun(s, bandwidth, acts);
    if acts != [] {
      var acts' := acts[..|acts| - 1];
      LaterCallsAgree(s, bandwidth, b, acts', t);
      SettledStep(Exec(s, bandwidth, acts').value, bandwidth, b, acts[|acts| - 1]);
    }
  }

  /** A store makes one bucket the last word exactly when no other call is between its miss and its store. */
  lemma StoreSettlesIff(s: State, bandwidth: U64, t: Tid)
    requires At(s, t).Created?
    ensures Do(s, bandwidth, Store(t)).Some?
    ensures Settled(Do(s, bandwidth, Store(t)).value, At(s, t).b) <==>
            forall u: Tid | u != t :: !At(s, u).Missed? && !At(s, u).Created?
  {
    var s' := Do(s, bandwidth, Store(t)).value;
    assert forall u: Tid | u != t :: At(s', u) == At(s, u);
  }

  // ----- Every bucket by itself

  /** The ticks and registrations of a run at one of the buckets. */
  function EventsAt(acts: seq<Action>, b: BucketId): seq<Event> {
    if acts == [] then []
    else
      var before, last := EventsAt(acts[..|acts| - 1], b), acts[|acts| - 1];
      if last.Run? && last.b == b then before + [last.e] else before
  }

  lemma LedgerStep(s: State, bandwidth: U64, a: Action, b: BucketId)
    requires Do(s, bandwidth, a).Some?
    ensures var ledgers, ledgers' := s.ledgers, Do(s, bandwidth, a).value.ledgers;
            && |ledgers| <= |ledgers'|
            && (|ledgers| <= b < |ledgers'| ==> ledgers'[b] == EMPTY_LEDGER)
            && (b < |ledgers| ==>
                  if a.Run? && a.b == b
                  then Allowed(ledgers[b].bucket, a.e, bandwidth) && ledgers'[b] == Record(ledgers[b], a.e, bandwidth)
                  else ledgers'[b] == ledgers[b])
            && (a.Run? && a.b == b ==> b < |ledgers|)
  {
  }

  lemma OneEventMore(es: seq<Event>, bandwidth: U64, l: Ledger, e: Event)
    requires RunEvents(EMPTY_LEDGER, es, bandwidth) == Some(l) && Allowed(l.bucket, e, bandwidth)
    ensures RunEvents(EMPTY_LEDGER, es + [e], bandwidth) == Some(Record(l, e, bandwidth))
  {
    assert (es + [e])[..|es|] == es;
  }

  /** What the events of bucket `b` make of a new bucket. */
  predicate OwnRun(acts: seq<Action>, bandwidth: U64, ledgers: seq<Ledger>, b: BucketId) {
    if b < |ledgers| then RunEvents(EMPTY_LEDGER, EventsAt(acts, b), bandwidth) == Some(ledgers[b])
    else EventsAt(acts, b) == []
  }

  lemma OwnRunStep(acts: seq<Action>, s: State, bandwidth: U64, a: Action, b: BucketId)
    requires OwnRun(acts, bandwidth, s.ledgers, b) && Do(s, bandwidth, a).Some?
    ensures OwnRun(acts + [a], bandwidth, Do(s, bandwidth, a).value.ledgers, b)
  {
    assert (acts + [a])[..|acts|] == acts;
    LedgerStep(s, bandwidth, a, b);
    if a.Run? && a.b == b {
      OneEventMore(EventsAt(acts, b), bandwidth, s.ledgers[b], a.e);
    }
  }

  /** In every run each bucket does what its own events make of a new bucket, whatever happens to the others. */
  lemma {:induction false} LedgerIsItsOwnRun(bandwidth: U64, acts: seq<Action>, b: BucketId)
    requires Exec(INIT, bandwidth, acts).Some?
    ensures OwnRun(acts, bandwidth, Exec(INIT, bandwidth, acts).value.ledgers, b)
    decreases |acts|
  {
    if acts != [] {
      var acts', a := acts[..|acts| - 1], acts[|acts| - 1];
      LedgerIsItsOwnRun(bandwidth, acts', b);
      OwnRunStep(acts', Exec(INIT, bandwidth, acts').value, bandwidth, a, b);
      assert acts == acts' + [a];
    }
  }

  // ----- What a user can be granted

  predicate Bounded(l: Ledger, bandwidth: U64) {
    Sound(l, bandwidth) && l.granted + l.bucket.tokens <= l.ticks * bandwidth
  }

  lemma RecordBounded(l: Ledger, e: Event, bandwidth: U64)
    requires Bounded(l, bandwidth) && Allowed(l.bucket, e, bandwidth)
    ensures Bounded(Record(l, e, bandwidth), bandwidth)
  {
    if e.TickEvent? {
      SaturateBounds(l.bucket.tokens, bandwidth);
      assert (l.ticks + 1) * bandwidth == l.ticks * bandwidth + bandwidth;
    }
  }

  lemma {:induction false} LedgersBounded(bandwidth: U64, acts: seq<Action>)
    requires Exec(INIT, bandwidth, acts).Some?
    ensures forall l | l in Exec(INIT, bandwidth, acts).value.ledgers :: Bounded(l, bandwidth)
    decreases |acts|
  {
    if acts != [] {
      var acts', a := acts[..|acts| - 1], acts[|acts| - 1];
      LedgersBounded(bandwidth, acts');
      var s := Exec(INIT, bandwidth, acts').value;
      if a.Run? {
        RecordBounded(s.ledgers[a.b], a.e, bandwidth);
      }
    }
  }

  function TotalGranted(ledgers: seq<Ledger>): nat {
    if ledgers == [] then 0 else ledgers[0].granted + TotalGranted(ledgers[1..])
  }

  lemma {:induction false} SumBound(ledgers: seq<Ledger>, each: nat)
    requires forall l | l in ledgers :: l.granted <= each
    ensures TotalGranted(ledgers) <= |ledgers| * each
  {
    if ledgers != [] {
      assert ledgers[0] in ledgers;
      SumBound(ledgers[1..], each);
      assert |ledgers| * each == (|ledgers| - 1) * each + each;
    }
  }

  lemma MoreTicks(j: nat, k: nat, bandwidth: nat)
    requires j <= k
    ensures j * bandwidth <= k * bandwidth
  {
  }

  lemma GrantedWithin(l: Ledger, bandwidth: U64, k: nat)
    requires Bounded(l, bandwidth) && l.ticks <= k
    ensures l.granted <= k * bandwidth
  {
    MoreTicks(l.ticks, k, bandwidth);
  }

  lemma AllGrantedWithin(ledgers: seq<Ledger>, bandwidth: U64, k: nat, each: nat)
    requires each == k * bandwidth
    requires forall l | l in ledgers :: Bounded(l, bandwidth) && l.ticks <= k
    ensures TotalGranted(ledgers) <= |ledgers| * each
  {
    forall l | l in ledgers ensures l.granted <= each {
      GrantedWithin(l, bandwidth, k);
    }
    SumBound(ledgers, each);
  }

  /**
   With `B` buckets ever created, the user is granted at most `B * k * bandwidth` while none has ticked more than `k`
   times.
   */
  lemma UserRate(bandwidth: U64, acts: seq<Action>, k: nat)
    requires Exec(INIT, bandwidth, acts).Some?
    requires forall l | l in Exec(INIT, bandwidth, acts).value.ledgers :: l.ticks <= k
    ensures var s := Exec(INIT, bandwidth, acts).value;
            TotalGranted(s.ledgers) <= |s.ledgers| * (k * bandwidth)
  {
    LedgersBounded(bandwidth, acts);
    AllGrantedWithin(Exec(INIT, bandwidth, acts).value.ledgers, bandwidth, k, k * bandwidth);
  }

  /** Two calls that both miss can leave two buckets, and the one stored last stays: the user's rate can double. */
  lemma TwoBuckets(bandwidth: U64) returns (acts: seq<Action>, s: State)
    ensures Exec(INIT, bandwidth, acts) == Some(s)
    ensures s.ledgers == [EMPTY_LEDGER, EMPTY_LEDGER] && Settled(s, 1)
    ensures At(s, 0) == Found(0) && At(s, 1) == Found(1)
  {
    var s1 := Goto(INIT, 0, Missed);
    Extend(INIT, bandwidth, [], INIT, Lookup(0), s1);
    var s2 := Goto(s1, 1, Missed);
    Extend(INIT, bandwidth, [] + [Lookup(0)], s1, Lookup(1), s2);
    acts := [] + [Lookup(0)] + [Lookup(1)];
    var s3 := MissCreates(s2, bandwidth, 0);
    Extend(INIT, bandwidth, acts, s2, Create(0, true), s3);
    acts := acts + [Create(0, true)];
    var s4 := MissCreates(s3, bandwidth, 1);
    Extend(INIT, bandwidth, acts, s3, Create(1, true), s4);
    acts := acts + [Create(1, true)];
    var s5 := Goto(s4, 0, Found(0)).(stored := Some(0));
    Extend(INIT, bandwidth, acts, s4, Store(0), s5);
    acts := acts + [Store(0)];
    s := Goto(s5, 1, Found(1)).(stored := Some(1));
    Extend(INIT, bandwidth, acts, s5, Store(1), s);
    acts := acts + [Store(1)];
  }

  lemma OneGrant(bandwidth: U64)
    requires Exact(bandwidth) && bandwidth > 0
    ensures Allowed(EMPTY_LEDGER.bucket, RegisterEvent(bandwidth), bandwidth)
    ensures var l := Record(EMPTY_LEDGER, RegisterEvent(bandwidth), bandwidth);
            Record(l, TickEvent, bandwidth) == Ledger(Bucket(0, None), 1, bandwidth, 0)
  {
    SaturateBounds(0, bandwidth);
  }

  /** A whole bandwidth is asked of a new bucket and granted by its first tick. */
  lemma GrantsOnce(bandwidth: U64, acts: seq<Action>, s: State, b: BucketId) returns (more: seq<Action>, s': State)
    requires Exact(bandwidth) && bandwidth > 0 && Exec(INIT, bandwidth, acts) == Some(s)
    requires b < |s.ledgers| && s.ledgers[b] == EMPTY_LEDGER
    ensures Exec(INIT, bandwidth, more) == Some(s')
    ensures s' == s.(ledgers := s.ledgers[b := Ledger(Bucket(0, None), 1, bandwidth, 0)])
  {
    OneGrant(bandwidth);
    var asked := Record(EMPTY_LEDGER, RegisterEvent(bandwidth), bandwidth);
    var s1 := s.(ledgers := s.ledgers[b := asked]);
    Extend(INIT, bandwidth, acts, s, Run(b, RegisterEvent(bandwidth)), s1);
    s' := s.(ledgers := s.ledgers[b := Ledger(Bucket(0, None), 1, bandwidth, 0)]);
    assert s1.ledgers[b := Ledger(Bucket(0, None), 1, bandwidth, 0)] == s'.ledgers;
    Extend(INIT, bandwidth, acts + [Run(b, RegisterEvent(bandwidth))], s1, Run(b, TickEvent), s');
    more := acts + [Run(b, RegisterEvent(bandwidth))] + [Run(b, TickEvent)];
  }

  lemma TotalOfTwo(l: Ledger)
    ensures TotalGranted([l, l]) == 2 * l.granted
  {
    assert [l, l][1..] == [l] && [l][1..] == [];
    assert TotalGranted([l]) == l.granted + TotalGranted([]);
  }

  /** The bound on the user's rate is reached: two buckets grant two bandwidths in one tick. */
  lemma RateDoubles(bandwidth: U64) returns (acts: seq<Action>, s: State)
    requires Exact(bandwidth) && bandwidth > 0
    ensures Exec(INIT, bandwidth, acts) == Some(s) && |s.ledgers| == 2
    ensures forall l | l in s.ledgers :: l.ticks == 1
    ensures TotalGranted(s.ledgers) == 2 * bandwidth
  {
    var l := Ledger(Bucket(0, None), 1, bandwidth, 0);
    var two, s0 := TwoBuckets(bandwidth);
    var first, s1 := GrantsOnce(bandwidth, two, s0, 0);
    assert s1.ledgers == [l, EMPTY_LEDGER];
    acts, s := GrantsOnce(bandwidth, first, s1, 1);
    assert s.ledgers == [l, l];
    TotalOfTwo(l);
  }
}
