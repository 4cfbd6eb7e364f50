/** The packet buffer, and reading labels, names and records out of it in place. */
module Packet {
  import opened Names
  import opened Dictionary
  import opened Records
  import opened Pushing
  import opened Growing
  import opened RoundTrip

  class Buffer {
    const data: array<byte>
    const dict: array<nat>
    var end: nat
    var memo: Memo

    ghost predicate Valid()
      reads this
    {
      HEADER <= end <= data.Length < 0x1_0000 && dict.Length == SLOTS && data as object != dict
    }

    /** The packet below its end. */
    ghost function Bytes(): (d: Bytes)
      requires Valid()
      reads this, data
      ensures |d| == end
    {
      data[..end]
    }

    ghost function State(): (p: Pkt)
      requires Valid()
      reads this, data, dict
    {
      Pkt(Bytes(), dict[..], memo, data.Length)
    }

    /** An empty packet over a buffer of size bytes (p_init). */
    constructor (size: nat)
      requires HEADER <= size < 0x1_0000
      ensures Valid() && fresh(data) && fresh(dict) && State() == Fresh(size)
    {
      data := new byte[size](_ => 0);
      dict := new nat[SLOTS](_ => 0);
      end := HEADER;
      memo := UNSTUDIED;
      new;
      assert data[..HEADER] == ZeroBytes(HEADER);
      assert dict[..] == Zeros(SLOTS);
    }

    method At(p: nat) returns (c: byte)
      requires Valid() && p < end
      ensures c == Bytes()[p]
    {
      c := data[p];
    }

    method Slice(p: nat, c: nat) returns (l: Names.Bytes)
      requires Valid() && p + c <= end
      ensures l == Bytes()[p..p + c]
    {
      l := data[p..p + c];
      assert forall i :: 0 <= i < c ==> l[i] == Bytes()[p..p + c][i];
    }
  }

  lemma Window(b: array<byte>, off: nat, len: nat, p: nat, c: nat)
    requires off + len <= b.Length && p + c <= len
    ensures b[off + p..off + p + c] == b[off..off + len][p..p + c]
  {
    var x, y := b[off + p..off + p + c], b[off..off + len][p..p + c];
    forall i | 0 <= i < c ensures x[i] == y[i] { assert y[i] == b[off..off + len][p + i] == b[off + (p + i)]; }
  }

  /** Copies c bytes at p of the len bytes from off on. */
  method Copy(b: array<byte>, off: nat, len: nat, p: nat, c: nat) returns (l: Bytes)
    requires off + len <= b.Length && p + c <= len
    ensures l == b[off..off + len][p..p + c]
  {
    Window(b, off, len, p, c);
    l := b[off + p..off + p + c];
  }

  method Fetch(b: array<byte>, off: nat, len: nat, p: nat) returns (c: byte)
    requires off + len <= b.Length && p < len
    ensures c == b[off..off + len][p]
  {
    c := b[off + p];
  }

  /** What one round of the retry loop decides about LabelAt. */
  lemma LabelRound(d: Bytes, src: nat, h: nat)
    ensures src >= |d| ==> LabelAt(d, src, h) == Expanded([], |d|)
    ensures src < |d| && d[src] / 64 == 0 ==>
              var c: int := d[src];
              if |d| - (src + 1) < c then LabelAt(d, src, h) == Expanded([], |d|)
              else LabelAt(d, src, h) == Expanded(d[src + 1..src + 1 + c], src + 1 + c)
    ensures src < |d| && d[src] / 64 == 3 ==>
              if h + 1 > MAX_PTRS || |d| - src < 2 then LabelAt(d, src, h) == Expanded([], |d|)
              else var hi: int, lo: int := d[src] % 64, d[src + 1];
                   LabelAt(d, src, h) == LabelAt(d, hi * 256 + lo, h + 1)
    ensures src < |d| && d[src] / 64 != 0 && d[src] / 64 != 3 ==> LabelAt(d, src, h) == Expanded([], |d|)
  {
  }

  lemma LimitHolds()
    ensures 0 <= MAX_PTRS
  {
  }

  /** The label at src of the len bytes from off on, pointers followed (l_expand). */
  method LExpand(b: array<byte>, off: nat, len: nat, start: nat) returns (lab: Label, nxt: nat)
    requires off + len <= b.Length
    ensures Expanded(lab, nxt) == LabelAt(b[off..off + len], start, 0)
  {
    hide *;
    LimitHolds();
    ghost var d := b[off..off + len];
    var src: nat, nptrs: nat := start, 0;
    while true
      invariant nptrs <= MAX_PTRS && LabelAt(d, src, nptrs) == LabelAt(d, start, 0)
      decreases MAX_PTRS - nptrs
    {
      LabelRound(d, src, nptrs);
      if src >= len { return [], len; }
      var c: int := Fetch(b, off, len, src);
      if c / 64 == 0 {
        if len - (src + 1) < c { return [], len; }
        lab := Copy(b, off, len, src + 1, c);
        return lab, src + 1 + c;
      } else if c / 64 == 3 {
        nptrs := nptrs + 1;
        if nptrs > MAX_PTRS || len - src < 2 { return [], len; }
        var lo: int := Fetch(b, off, len, src + 1);
        src := c % 64 * 256 + lo;
      } else {
        return [], len;
      }
    }
  }

  method LSkip(P: Buffer, start: nat) returns (p: nat)
    requires P.Valid()
    ensures p == LabelSkip(P.Bytes(), start)
  {
    if start >= P.end || P.data[start] / 64 != 0 { return P.end; }
    var len: int, src: nat := P.data[start], start + 1;
    if P.end - src < len || len == 0 { return P.end; }
    return src + len;
  }

  /** The end of the name at start (d_skip). */
  method DSkip(P: Buffer, start: nat) returns (p: nat)
    requires P.Valid()
    ensures p == Skip(P.Bytes(), start)
  {
    ghost var d := P.Bytes();
    var src: nat := start;
    while src < P.end
      invariant NameEnd(d, start) == NameEnd(d, src)
      decreases P.end - src
    {
      var len: int := P.data[src];
      if len / 64 == 0 {
        src := src + 1;
        if len == 0 {
          return src;
        } else if P.end - src > len {
          src := src + len;
        } else {
          return P.end;
        }
      } else if len / 64 == 3 {
        if P.end - src < 2 { return P.end; }
        return src + 2;
      } else {
        return P.end;
      }
    }
    return P.end;
  }

  lemma EndFits(P: Buffer)
    requires P.Valid()
    ensures HEADER <= P.end <= P.data.Length < 0x1_0000 && |P.Bytes()| == P.end
  {
  }
}
