/** Expanding a stored name into text, in place (dns_d_expand). */
module NameReading {
  import opened Names
  import opened Compress
  import opened RecordData
  import opened Packet

  /** As much of t as fits below lim stands at the start of dst. */
  ghost predicate Wrote(dst: array<byte>, lim: nat, t: Bytes)
    requires lim <= dst.Length
    reads dst
  {
    forall i :: 0 <= i < |t| && i < lim ==> dst[i] == t[i]
  }

  /** dst holds t as a C string, cut to lim bytes with its NUL. */
  ghost predicate Shows(dst: array<byte>, lim: nat, t: Bytes)
    requires lim <= dst.Length
    reads dst
  {
    lim > 0 ==>
      var k := if |t| < lim then |t| else lim - 1;
      dst[..k] == t[..k] && dst[k] == 0
  }

  ghost predicate Beyond(dst: array<byte>, lim: nat, was: Bytes)
    requires lim <= dst.Length == |was|
    reads dst
  {
    forall i :: lim <= i < dst.Length ==> dst[i] == was[i]
  }

  /** Appends t to the text of length p, if it fits. */
  method Append(dst: array<byte>, lim: nat, p: nat, t: Bytes, ghost s: Bytes, ghost was: Bytes)
    requires lim <= dst.Length == |was| && |s| == p && Wrote(dst, lim, s) && Beyond(dst, lim, was)
    modifies dst
    ensures Wrote(dst, lim, s + t) && Beyond(dst, lim, was)
  {
    if p < lim {
      var k := if |t| < lim - p then |t| else lim - p;
      forall i | 0 <= i < k { dst[p + i] := t[i]; }
    }
  }

  /** Ends the text of length p with a NUL, inside lim bytes. */
  method Terminate(dst: array<byte>, lim: nat, p: nat, ghost t: Bytes, ghost was: Bytes)
    requires lim <= dst.Length == |was| && |t| == p && Wrote(dst, lim, t) && Beyond(dst, lim, was)
    modifies dst
    ensures Shows(dst, lim, t) && Beyond(dst, lim, was)
  {
    if lim > 0 { dst[if p < lim - 1 then p else lim - 1] := 0; }
  }

  function PrependAll(m: Name, r: Reading): Reading { if r.Labels? then Labels(m + r.n) else r }

  lemma PrependOne(m: Name, l: Label, r: Reading)
    ensures PrependAll(m, Prepend(l, r)) == PrependAll(m + [l], r)
  {
    if r.Labels? { assert m + ([l] + r.n) == m + [l] + r.n; }
  }

  /** What stands at one place of a name: its end, a label, a usable pointer, or neither. */
  datatype Place = Root | Part(l: Label, next: nat) | Jump(next: nat) | Bad

  ghost predicate Leads(d: Bytes, src: nat, h: nat, f: nat, s: Place) {
    f > 0 && match s
    case Root => Read(d, src, h, f) == Labels([])
    case Part(l, q) => Read(d, src, h, f) == Prepend(l, Read(d, q, 0, f - 1))
    case Jump(q) => h + 1 <= MAX_PTRS && Read(d, src, h, f) == Read(d, q, h + 1, f - 1)
    case Bad => Read(d, src, h, f) == Illegal
  }

  lemma TargetIs(d: Bytes, p: nat)
    requires p + 2 <= |d|
    ensures var hi: int, lo: int := d[p] % 64, d[p + 1]; Target(d, p) == hi * 256 + lo
  {
  }

  method PlaceAt(P: Buffer, src: nat, nptrs: nat, ghost f: nat) returns (s: Place)
    requires P.Valid() && src < P.end && !Read(P.Bytes(), src, nptrs, f).Unfinished?
    ensures Leads(P.Bytes(), src, nptrs, f, s)
  {
    var len: int := P.At(src);
    hide Target;
    if len / 64 == 0 {
      if len == 0 { return Root; }
      if P.end - (src + 1) < len { return Bad; }
      var l := P.Slice(src + 1, len);
      return Part(l, src + 1 + len);
    } else if len / 64 == 3 {
      if nptrs + 1 > MAX_PTRS || P.end - src < 2 { return Bad; }
      TargetIs(P.Bytes(), src);
      var lo: int := P.At(src + 1);
      return Jump(len % 64 * 256 + lo);
    } else {
      return Bad;
    }
  }

  lemma DottedMore(m: Name, l: Label)
    ensures Dotted(m + [l]) == Dotted(m) + l + [DOT]
  {
    DottedConcat(m, [l]);
    var one: Name := [l];
    assert one[1..] == [];
    assert Dotted([l]) == l + [DOT];
  }

  lemma TextDone(m: Name, e: Reading)
    requires e == PrependAll(m, Labels([]))
    ensures e == Labels(m)
  {
    assert m + [] == m;
  }

  lemma NothingRead(r: Reading)
    ensures PrependAll([], r) == r
  {
    if r.Labels? { assert [] + r.n == r.n; }
  }

  /** Appends one label and its dot. */
  method AppendLabel(dst: array<byte>, lim: nat, p: nat, l: Label, ghost m: Name, ghost was: Bytes) returns (q: nat)
    requires lim <= dst.Length == |was| && |Dotted(m)| == p && Wrote(dst, lim, Dotted(m)) && Beyond(dst, lim, was)
    modifies dst
    ensures q == |Dotted(m + [l])| && Wrote(dst, lim, Dotted(m + [l])) && Beyond(dst, lim, was)
  {
    hide Wrote, Beyond, Dotted;
    DottedMore(m, l);
    Append(dst, lim, p, l, Dotted(m), was);
    Append(dst, lim, p + |l|, [DOT], Dotted(m) + l, was);
    q := p + |l| + 1;
  }

  lemma DottedEmpty(m: Name)
    ensures |Dotted(m)| == 0 <==> m == []
    ensures m != [] ==> Text(m) == Dotted(m)
    ensures m == [] ==> Dotted(m) == [] && Text(m) == [DOT]
  {
  }

  /** Ends the text of a whole name; the root is a single dot. */
  method EndName(dst: array<byte>, lim: nat, p: nat, ghost m: Name, ghost was: Bytes) returns (q: nat)
    requires lim <= dst.Length == |was| && |Dotted(m)| == p && Wrote(dst, lim, Dotted(m)) && Beyond(dst, lim, was)
    modifies dst
    ensures q == |Text(m)| && Shows(dst, lim, Text(m)) && Beyond(dst, lim, was)
  {
    hide Wrote, Beyond, Dotted, Text, Shows;
    DottedEmpty(m);
    q := p;
    if q == 0 {
      Append(dst, lim, 0, [DOT], [], was);
      assert [] + [DOT] == [DOT];
      q := 1;
    }
    Terminate(dst, lim, q, Text(m), was);
  }

  /** The text of the name at start. When the bytes hold a cycle the source never
      returns; the precondition rules out just those bytes. */
  method DExpand(P: Buffer, dst: array<byte>, lim: nat, start: nat) returns (dstp: nat)
    requires P.Valid() && dst != P.data && lim <= dst.Length && !Expand(P.Bytes(), start).Unfinished?
    modifies dst
    ensures Expand(P.Bytes(), start).Labels? ==>
              dstp == |Text(Expand(P.Bytes(), start).n)| && Shows(dst, lim, Text(Expand(P.Bytes(), start).n))
    ensures Expand(P.Bytes(), start).Illegal? ==> dstp == 0
    ensures Beyond(dst, lim, old(dst[..]))
  {
    ghost var d, was, e := P.Bytes(), dst[..], Expand(P.Bytes(), start);
    ghost var m: Name, f: nat := [], 128 * |d|;
    var src: nat, nptrs: nat := start, 0;
    dstp := 0;
    NothingRead(e);
    BeyondSelf(dst, lim);
    WroteNone(dst, lim);
    hide Beyond, Wrote, Shows, Dotted, Text, Read, Prepend;
    DottedEmpty([]);
    while src < P.end
      invariant nptrs <= MAX_PTRS && P.Valid() && P.Bytes() == d
      invariant PrependAll(m, Read(d, src, nptrs, f)) == e
      invariant dstp == |Dotted(m)| && Wrote(dst, lim, Dotted(m)) && Beyond(dst, lim, was)
      decreases f
    {
      var s := PlaceAt(P, src, nptrs, f);
      match s {
        case Root =>
          TextDone(m, e);
          dstp := EndName(dst, lim, dstp, m, was);
          return;
        case Part(l, q) =>
          dstp := AppendLabel(dst, lim, dstp, l, m, was);
          PrependOne(m, l, Read(d, q, 0, f - 1));
          src, nptrs, m, f := q, 0, m + [l], f - 1;
        case Jump(q) =>
          src, nptrs, f := q, nptrs + 1, f - 1;
        case Bad =>
          Terminate(dst, lim, dstp, Dotted(m), was);
          return 0;
      }
    }
    ReadOutside(d, src, nptrs, f);
    Terminate(dst, lim, dstp, Dotted(m), was);
    return 0;
  }

  lemma ReadOutside(d: Bytes, src: nat, h: nat, f: nat)
    requires src >= |d|
    ensures Read(d, src, h, f) == Illegal
  {
  }

  lemma BeyondSelf(dst: array<byte>, lim: nat)
    requires lim <= dst.Length
    ensures Beyond(dst, lim, dst[..])
  {
  }

  lemma WroteNone(dst: array<byte>, lim: nat)
    requires lim <= dst.Length
    ensures Wrote(dst, lim, [])
  {
  }
}
