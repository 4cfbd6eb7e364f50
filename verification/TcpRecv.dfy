/** Reassembling a length-framed answer from a stream (dns_so_tcp_recv). */
module TcpRecv {
  import opened Options
  import opened Names

  const MINBUF: nat := 768

  function Length(s: Bytes): (n: nat)
    requires |s| >= 2
    ensures n < 0x1_0000
  {
    var hi: int, lo: int := s[0], s[1];
    hi * 256 + lo
  }

  /** The first message of a stream, once all of it is there. */
  function Framed(s: Bytes): Option<Bytes> {
    if |s| < 2 || |s| < 2 + Length(s) then None else Some(s[2..2 + Length(s)])
  }

  /** The length stands in front of the message in two octets, the higher first (section 4.2.2 of RFC 1035). */
  lemma FramedExact(s: Bytes, x: Bytes)
    ensures Framed(s) == Some(x) <==>
            && |s| >= 2 + |x| && s[2..2 + |x|] == x
            && var hi: int, lo: int := s[0], s[1]; 256 * hi + lo == |x|
  {
  }

  function Max(a: nat, b: nat): nat { if a < b then b else a }

  function Least(a: nat, b: nat): nat { if a < b then a else b }

  class Socket {
    /** The packet buffer with the two bytes before its data, which take the length. */
    var answer: array<byte>
    var alen: nat
    var apos: nat
    var end: nat
    /** What the peer sends, however it arrives; recv takes it from apos on. */
    const stream: Bytes

    /** And the length is known as soon as it is there. */
    ghost predicate Valid()
      reads this, answer
    {
      Held() && (alen == 0 && apos == 2 ==> Length(stream) == 0)
    }

    /** A socket whose query was sent, with a buffer of the advertised size; nothing has arrived. */
    constructor (s: Bytes, maxudp: nat)
      ensures Valid() && alen == 0 && apos == 0 && stream == s && fresh(answer)
    {
      answer := new byte[2 + Max(maxudp, MINBUF)](_ => 0);
      alen, apos, end := 0, 0, 0;
      stream := s;
    }

    /** All that was read stands in the buffer. */
    ghost predicate Held()
      reads this, answer
    {
      && answer.Length >= 2 + Max(alen, MINBUF) && apos <= |stream| && apos <= alen + 2
      && (alen == 0 ==> answer[..apos] == stream[..apos])
      && (alen > 0 ==> apos >= 2 && alen == Length(stream) && answer[2..apos] == stream[2..apos])
    }

    /** One read (recv): n bytes of those asked for, into the buffer at apos. */
    method Read(n: nat)
      requires Held() && 0 < n <= alen + 2 - apos && apos + n <= |stream|
      modifies answer, this`apos
      ensures Held() && apos == old(apos) + n
    {
      ghost var was := answer[..];
      var p := apos;
      forall i | p <= i < p + n { answer[i] := stream[i]; }
      apos := apos + n;
      if alen == 0 {
        assert forall i :: 0 <= i < p ==> was[i] == stream[i] by { assert was[..p] == stream[..p]; }
      } else {
        forall i | 2 <= i < p ensures was[i] == stream[i] { assert was[2..p][i - 2] == stream[2..p][i - 2]; }
      }
    }

    /** A new buffer for a message of that length (dns_so_newanswer). */
    method NewAnswer(len: nat)
      requires Held() && alen == 0 && apos == 2 && len == Length(stream)
      modifies this`answer, this`alen
      ensures Valid() && alen == len && (answer == old(answer) || fresh(answer))
    {
      answer := new byte[2 + Max(len, MINBUF)](_ => 0);
      alen := len;
    }

    /** One call: reads of the given sizes, cut to what is asked for and what is there, until
        the message is complete or a read would block. */
    method TcpRecv(sizes: seq<nat>) returns (done: bool)
      requires Valid() && forall n :: n in sizes ==> n > 0
      modifies this, answer
      ensures Valid()
      ensures done ==> 2 + end <= answer.Length && Framed(stream) == Some(answer[2..2 + end]) && apos == 2 + end
      ensures !done ==> apos == |stream| || apos >= old(apos) + |sizes|
      ensures !done && apos == |stream| ==> Framed(stream) == None
    {
      var aend := alen + 2;
      var k := 0;
      while apos < aend
        invariant Valid() && k <= |sizes| && aend == alen + 2 && apos >= old(apos) + k
        invariant answer == old(answer) || fresh(answer)
        decreases |sizes| - k
      {
        if k == |sizes| { return false; }
        assert sizes[k] in sizes;
        var n := Least(Least(sizes[k], aend - apos), |stream| - apos);
        if n == 0 { return false; }
        Read(n);
        if alen == 0 && apos >= 2 {
          var hi: int, lo: int := answer[0], answer[1];
          assert answer[..2] == stream[..2];
          assert answer[..2][0] == stream[..2][0] && answer[..2][1] == stream[..2][1];
          var len := hi * 256 + lo;
          NewAnswer(len);
          aend := len + 2;
        }
        k := k + 1;
      }
      end := alen;
      return true;
    }
  }
}
