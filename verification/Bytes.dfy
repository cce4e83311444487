/** Octets, the fixed-width integers that the wire formats need, and failure results. */
module Bytes {

  type Byte = b: int | 0 <= b < 256
  type Uint16 = n: int | 0 <= n < 65536

  datatype Option<+T> = None | Some(value: T)

  datatype Result<+T, +E> = Success(value: T) | Failure(error: E) {
    predicate IsFailure() {
      Failure?
    }

    function PropagateFailure<U>(): Result<U, E>
      requires Failure?
    {
      Failure(error)
    }

    function Extract(): T
      requires Success?
    {
      value
    }
  }

  /** Network octet order of a port number, and its inverse. */
  function BigEndian(n: Uint16): (r: seq<Byte>)
    ensures |r| == 2
  {
    [n / 256, n % 256]
  }

  function FromBigEndian(s: seq<Byte>): Uint16
    requires |s| == 2
  {
    s[0] as int * 256 + s[1] as int
  }

  lemma BigEndianInverse(n: Uint16, s: seq<Byte>)
    requires |s| == 2
    ensures FromBigEndian(BigEndian(n)) == n
    ensures BigEndian(FromBigEndian(s)) == s
    ensures n == BigEndian(n)[0] as int * 256 + BigEndian(n)[1] as int
  {
    assert FromBigEndian(s) / 256 == s[0] && FromBigEndian(s) % 256 == s[1];
  }

  /** Fills a fresh two-octet buffer, most significant octet first. */
  method Uint16ToBytes(n: Uint16) returns (buf: array<Byte>)
    ensures fresh(buf) && buf.Length == 2
    ensures buf[..] == BigEndian(n) && FromBigEndian(buf[..]) == n
    ensures buf[0] as int * 256 + buf[1] as int == n
  {
    buf := new Byte[2];
    buf[0] := n / 256;
    buf[1] := n % 256;
  }

  /** The concatenation of a sequence of messages. */
  function Concat(ms: seq<seq<Byte>>): seq<Byte> {
    if ms == [] then [] else ms[0] + Concat(ms[1..])
  }

  lemma {:induction false} ConcatAppend(a: seq<seq<Byte>>, b: seq<seq<Byte>>)
    ensures Concat(a + b) == Concat(a) + Concat(b)
  {
    if a == [] {
      assert a + b == b;
    } else {
      ConcatAppend(a[1..], b);
      assert (a + b)[0] == a[0] && (a + b)[1..] == a[1..] + b;
    }
  }

  lemma ConcatSnoc(a: seq<seq<Byte>>, m: seq<Byte>)
    ensures Concat(a + [m]) == Concat(a) + m
  {
    ConcatAppend(a, [m]);
    assert Concat([m]) == m + Concat([m][1..]) == m;
  }
}
