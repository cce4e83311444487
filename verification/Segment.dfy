/** The connection that splits the first TLS record it writes (pkg/core/tcp_segment_conn.go). */
module Segment {
  import opened Bytes

  /** The connection's flag, and the segments it has handed to TCP. */
  datatype Sink = Sink(on: bool, segments: seq<seq<Byte>>)

  /** What one call hands over when every write below it succeeds. */
  function Written(s: Sink, b: seq<Byte>, isTls: bool): Sink
    requires isTls ==> 2 <= |b|
  {
    if s.on && isTls then Sink(false, s.segments + [b[..2], b[2..]]) else Sink(s.on, s.segments + [b])
  }

  class TCPSegmentConn {
    var segmentOn: bool
    var segments: seq<seq<Byte>>

    ghost function Contents(): Sink
      reads this
    {
      Sink(segmentOn, segments)
    }

    constructor ()
      ensures Contents() == Sink(true, [])
    {
      segmentOn := true;
      segments := [];
    }

    /** A write of the TCP connection below: `fails` after that many octets, if it fails. */
    method TcpWrite(b: seq<Byte>, fails: Option<nat>) returns (n: nat, failed: bool)
      requires fails.Some? ==> fails.value <= |b|
      modifies this`segments
      ensures failed == fails.Some? && n == (if failed then fails.value else |b|)
      ensures segments == old(segments) + [b[..n]]
    {
      failed := fails.Some?;
      n := if failed then fails.value else |b|;
      segments := segments + [b[..n]];
    }

    /** `isTls` is the packet decoder's verdict; a recognised record has at least its first two octets. */
    method Write(b: seq<Byte>, isTls: bool, fails1: Option<nat>, fails2: Option<nat>) returns (n: nat, failed: bool)
      requires isTls ==> 2 <= |b|
      requires fails1.Some? ==> fails1.value <= if segmentOn && isTls then 2 else |b|
      requires fails2.Some? ==> segmentOn && isTls && fails2.value <= |b| - 2
      modifies this
      ensures failed <==> fails1.Some? || fails2.Some?
      ensures !failed ==> n == |b| && Contents() == Written(old(Contents()), b, isTls)
      ensures failed ==> segmentOn == old(segmentOn)
      ensures exists k :: 0 <= k <= |b| && Concat(segments) == Concat(old(segments)) + b[..k]
    {
      if segmentOn && isTls {
        n, failed := TcpWrite(b[0..2], fails1);
        if failed {
          ConcatSnoc(old(segments), b[0..2][..n]);
          assert b[0..2][..n] == b[..n];
          return;
        }
        assert b[0..2][..n] == b[0..2];
        n, failed := TcpWrite(b[2..], fails2);
        ConcatSnoc(old(segments), b[0..2]);
        ConcatSnoc(old(segments) + [b[0..2]], b[2..][..n]);
        assert b[0..2] + b[2..][..n] == b[..2 + n];
        assert Concat(segments) == Concat(old(segments)) + b[..2 + n];
        if failed {
          return;
        }
        segmentOn := false;
        assert b[2..][..n] == b[2..];
        assert segments == old(segments) + [b[..2], b[2..]];
        return |b|, false;
      }
      n, failed := TcpWrite(b, fails1);
      ConcatSnoc(old(segments), b[..n]);
      assert !failed ==> b[..n] == b;
    }
  }

  /** A successful call with its argument and the decoder's verdict on it. */
  datatype Call = Call(b: seq<Byte>, isTls: bool)

  predicate ValidCalls(calls: seq<Call>) {
    forall i | 0 <= i < |calls| :: calls[i].isTls ==> 2 <= |calls[i].b|
  }

  function WriteAll(s: Sink, calls: seq<Call>): Sink
    requires ValidCalls(calls)
  {
    if calls == [] then s
    else Written(WriteAll(s, calls[..|calls| - 1]), calls[|calls| - 1].b, calls[|calls| - 1].isTls)
  }

  /** The arguments, one segment each. */
  function Arguments(calls: seq<Call>): seq<seq<Byte>> {
    if calls == [] then [] else Arguments(calls[..|calls| - 1]) + [calls[|calls| - 1].b]
  }

  predicate NoTls(calls: seq<Call>) {
    forall i | 0 <= i < |calls| :: !calls[i].isTls
  }

  /** Call `i` carries the first recognised record. */
  predicate FirstTls(calls: seq<Call>, i: nat) {
    i < |calls| && calls[i].isTls && forall k | 0 <= k < i :: !calls[k].isTls
  }

  /** The first record in two segments, of 2 octets and the rest; every other argument in one. */
  function SplitAt(calls: seq<Call>, i: nat): seq<seq<Byte>>
    requires i < |calls| && 2 <= |calls[i].b|
  {
    Arguments(calls[..i]) + [calls[i].b[..2], calls[i].b[2..]] + Arguments(calls[i + 1..])
  }

  lemma {:induction false} WithoutTls(calls: seq<Call>)
    requires ValidCalls(calls) && NoTls(calls)
    ensures WriteAll(Sink(true, []), calls) == Sink(true, Arguments(calls))
    decreases |calls|
  {
    if calls != [] {
      WithoutTls(calls[..|calls| - 1]);
    }
  }

  lemma ArgumentsSnoc(calls: seq<Call>, last: Call)
    ensures Arguments(calls + [last]) == Arguments(calls) + [last.b]
  {
    assert (calls + [last])[..|calls|] == calls;
  }

  lemma SplitSnoc(calls: seq<Call>, i: nat, last: Call)
    requires i < |calls| && 2 <= |calls[i].b|
    ensures SplitAt(calls + [last], i) == SplitAt(calls, i) + [last.b]
  {
    var all := calls + [last];
    assert all[..i] == calls[..i] && all[i + 1..] == calls[i + 1..] + [last];
    ArgumentsSnoc(calls[i + 1..], last);
  }

  lemma {:induction false} AfterTheFirst(calls: seq<Call>, i: nat)
    requires ValidCalls(calls) && FirstTls(calls, i)
    ensures WriteAll(Sink(true, []), calls) == Sink(false, SplitAt(calls, i))
    decreases |calls|
  {
    var before, last := calls[..|calls| - 1], calls[|calls| - 1];
    if i == |before| {
      WithoutTls(before);
      assert SplitAt(calls, i) == Arguments(before) + [last.b[..2], last.b[2..]];
    } else {
      AfterTheFirst(before, i);
      SplitSnoc(before, i, last);
      assert calls == before + [last];
    }
  }

  lemma {:induction false} SplitKeepsOctets(calls: seq<Call>, i: nat)
    requires i < |calls| && 2 <= |calls[i].b|
    ensures Concat(SplitAt(calls, i)) == Concat(Arguments(calls))
    decreases |calls|
  {
    var before, last := calls[..|calls| - 1], calls[|calls| - 1];
    if i == |before| {
      var head := Arguments(before);
      assert calls[i + 1..] == [] && SplitAt(calls, i) == (head + [last.b[..2]]) + [last.b[2..]];
      ConcatSnoc(head, last.b[..2]);
      ConcatSnoc(head + [last.b[..2]], last.b[2..]);
      ConcatSnoc(head, last.b);
      assert last.b == last.b[..2] + last.b[2..];
    } else {
      SplitKeepsOctets(before, i);
      SplitSnoc(before, i, last);
      assert calls == before + [last];
      ConcatSnoc(SplitAt(before, i), last.b);
      ConcatSnoc(Arguments(before), last.b);
    }
  }

  /**
   Over any sequence of successful calls on a fresh connection: with no recognised record every call is one segment;
   otherwise the first recognised record, and no other call, is split, after 2 octets, and the flag is off from then on.
   Either way TCP carries the concatenation of the arguments.
   */
  lemma SplitOnce(calls: seq<Call>)
    requires ValidCalls(calls)
    ensures var s := WriteAll(Sink(true, []), calls);
            && Concat(s.segments) == Concat(Arguments(calls))
            && s.on == NoTls(calls)
            && (NoTls(calls) ==> s.segments == Arguments(calls))
            && forall i: nat | FirstTls(calls, i) :: s.segments == SplitAt(calls, i)
    ensures NoTls(calls) || exists i: nat :: FirstTls(calls, i)
  {
    if NoTls(calls) {
      WithoutTls(calls);
    } else {
      var first := FindFirst(calls);
      AfterTheFirst(calls, first);
      SplitKeepsOctets(calls, first);
      assert forall i: nat | FirstTls(calls, i) :: i == first;
    }
  }

  lemma {:induction false} FindFirst(calls: seq<Call>) returns (i: nat)
    requires !NoTls(calls)
    ensures FirstTls(calls, i)
    decreases |calls|
  {
    var before := calls[..|calls| - 1];
    if NoTls(before) {
      i := |before|;
    } else {
      i := FindFirst(before);
    }
  }
}
