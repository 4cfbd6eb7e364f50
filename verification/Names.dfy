/** Domain names as label sequences, their dotted text, and their wire form
    inside a packet: labels, the terminating root, and compression pointers. */
module Names {
  import opened Options

  type byte = b: int | 0 <= b < 256
  type Bytes = seq<byte>
  type Label = Bytes
  type Name = seq<Label>

  const HEADER: nat := 12      // offset of the first name in a packet
  const MAX_LABEL: nat := 63
  const MAX_PTRS: nat := 127   // longest run of pointers a reader follows
  const DOT: byte := 46

  // ----- names and their text -----

  predicate GoodLabel(l: Label) { 1 <= |l| <= MAX_LABEL && 0 !in l && DOT !in l }

  predicate GoodName(n: Name) { forall i :: 0 <= i < |n| ==> GoodLabel(n[i]) }

  function Dotted(n: Name): Bytes {
    if n == [] then [] else n[0] + [DOT] + Dotted(n[1..])
  }

  /** The anchored text of a name; the root is a single dot. */
  function Text(n: Name): (t: Bytes)
    ensures |t| >= 1
  {
    if n == [] then [DOT] else Dotted(n)
  }

  /** src spells n, with or without the final dot. */
  predicate Spells(src: Bytes, n: Name) {
    src == Text(n) || (n != [] && src + [DOT] == Text(n))
  }

  // ----- ASCII case -----

  function Lower(c: byte): byte { if 65 <= c <= 90 then c + 32 else c }

  predicate SameLabel(a: Label, b: Label) {
    |a| == |b| && forall i :: 0 <= i < |a| ==> Lower(a[i]) == Lower(b[i])
  }

  predicate SameName(a: Name, b: Name) {
    |a| == |b| && forall i :: 0 <= i < |a| ==> SameLabel(a[i], b[i])
  }

  // ----- wire form -----

  function WireLabels(n: Name): Bytes
    requires forall i :: 0 <= i < |n| ==> |n[i]| <= MAX_LABEL
  {
    if n == [] then [] else [|n[0]|] + n[0] + WireLabels(n[1..])
  }

  function Wire(n: Name): Bytes
    requires forall i :: 0 <= i < |n| ==> |n[i]| <= MAX_LABEL
  {
    WireLabels(n) + [0]
  }

  function Pointer(p: nat): (w: Bytes)
    requires p <= 0x3fff
    ensures |w| == 2 && w[0] >= 192
  {
    [192 + p / 256, p % 256]
  }

  /** The target of the pointer stored at p. */
  function Target(d: Bytes, p: nat): nat
    requires p + 2 <= |d|
  {
    var hi: int, lo: int := d[p] % 64, d[p + 1];
    hi * 256 + lo
  }

  // ----- reading one label, following pointers (l_expand) -----

  datatype Expanded = Expanded(lab: Label, nxt: nat)

  function LabelAt(d: Bytes, src: nat, nptrs: nat): (e: Expanded)
    ensures e.nxt <= |d| && |e.lab| <= MAX_LABEL
    decreases MAX_PTRS + 1 - nptrs
  {
    if src >= |d| then Expanded([], |d|)
    else
      match d[src] / 64
      case 0 =>
        if |d| - (src + 1) < d[src] then Expanded([], |d|)
        else Expanded(d[src + 1..src + 1 + d[src]], src + 1 + d[src])
      case 3 =>
        if nptrs + 1 > MAX_PTRS || |d| - src < 2 then Expanded([], |d|)
        else LabelAt(d, Target(d, src), nptrs + 1)
      case _ => Expanded([], |d|)
  }

  /** The label after src, without following pointers (l_skip). */
  function LabelSkip(d: Bytes, src: nat): (p: nat)
    ensures p <= |d| && (src < |d| ==> p > src)
  {
    if src < |d| && d[src] / 64 == 0 && d[src] != 0 && |d| - (src + 1) >= d[src] then src + 1 + d[src]
    else |d|
  }

  // ----- the end of a name in place (d_skip) -----

  function NameEnd(d: Bytes, src: nat): (e: Option<nat>)
    ensures e.Some? ==> src < e.value <= |d|
    decreases |d| - src
  {
    if src >= |d| then None
    else
      match d[src] / 64
      case 0 =>
        if d[src] == 0 then Some(src + 1)
        else if |d| - (src + 1) > d[src] then NameEnd(d, src + 1 + d[src])
        else None
      case 3 => if |d| - src < 2 then None else Some(src + 2)
      case _ => None
  }

  function Skip(d: Bytes, src: nat): (p: nat)
    ensures p <= |d| && (src < |d| ==> src < p)
  {
    match NameEnd(d, src)
    case Some(p) => p
    case None => |d|
  }

  // ----- reading a whole name (d_expand) -----

  datatype Reading = Labels(n: Name) | Illegal | Unfinished

  /** Reads the name at src in at most fuel steps; a step is a label or a pointer. */
  function Read(d: Bytes, src: nat, nptrs: nat, fuel: nat): Reading
    decreases fuel
  {
    if src >= |d| then Illegal
    else if fuel == 0 then Unfinished
    else
      match d[src] / 64
      case 0 =>
        if d[src] == 0 then Labels([])
        else if |d| - (src + 1) < d[src] then Illegal
        else Prepend(d[src + 1..src + 1 + d[src]], Read(d, src + 1 + d[src], 0, fuel - 1))
      case 3 =>
        if nptrs + 1 > MAX_PTRS || |d| - src < 2 then Illegal
        else Read(d, Target(d, src), nptrs + 1, fuel - 1)
      case _ => Illegal
  }

  function Prepend(l: Label, r: Reading): Reading {
    if r.Labels? then Labels([l] + r.n) else r
  }

  // ----- names as this code stores them -----

  /** The name stored at p, when its pointers stay in the body of the packet and
      each leads before the start (bound) of the segment that holds it. hops
      counts the pointers followed since the last label. */
  function NameAt(d: Bytes, p: nat, bound: nat, hops: nat): Option<Name>
    decreases bound, |d| - p
  {
    if p >= |d| then None
    else
      match d[p] / 64
      case 0 =>
        if d[p] == 0 then Some([])
        else if |d| - (p + 1) < d[p] then None
        else
          (match NameAt(d, p + 1 + d[p], bound, 0)
           case Some(rest) => Some([d[p + 1..p + 1 + d[p]]] + rest)
           case None => None)
      case 3 =>
        if hops < MAX_PTRS && |d| - p >= 2 && HEADER <= Target(d, p) < bound
        then NameAt(d, Target(d, p), Target(d, p), hops + 1)
        else None
      case _ => None
  }

  function Stored(d: Bytes, p: nat): Option<Name> { NameAt(d, p, p, 0) }

  /** d2 extends d outside the header. */
  predicate Extends(d: Bytes, d2: Bytes) {
    |d| <= |d2| && forall i :: HEADER <= i < |d| ==> d[i] == d2[i]
  }

  lemma {:induction false} NameAtExtends(d: Bytes, d2: Bytes, p: nat, bound: nat, hops: nat)
    requires Extends(d, d2) && p >= HEADER && NameAt(d, p, bound, hops).Some?
    ensures NameAt(d2, p, bound, hops) == NameAt(d, p, bound, hops)
    decreases bound, |d| - p
  {
    if d[p] / 64 == 0 {
      if d[p] != 0 {
        NameAtExtends(d, d2, p + 1 + d[p], bound, 0);
        assert d[p + 1..p + 1 + d[p]] == d2[p + 1..p + 1 + d[p]];
      }
    } else {
      NameAtExtends(d, d2, Target(d, p), Target(d, p), hops + 1);
    }
  }

  lemma {:induction false} NameEndExtends(d: Bytes, d2: Bytes, p: nat)
    requires Extends(d, d2) && p >= HEADER && NameEnd(d, p).Some?
    ensures NameEnd(d2, p) == NameEnd(d, p)
    decreases |d| - p
  {
    if d[p] / 64 == 0 && d[p] != 0 { NameEndExtends(d, d2, p + 1 + d[p]); }
  }

  /** A larger bound and fewer hops only accept more. */
  lemma {:induction false} NameAtRelax(d: Bytes, p: nat, b: nat, h: nat, b2: nat, h2: nat)
    requires NameAt(d, p, b, h).Some? && b <= b2 && h2 <= h
    ensures NameAt(d, p, b2, h2) == NameAt(d, p, b, h)
    decreases b, |d| - p
  {
    if d[p] / 64 == 0 {
      if d[p] != 0 { NameAtRelax(d, p + 1 + d[p], b, 0, b2, 0); }
    } else {
      var t := Target(d, p);
      NameAtRelax(d, t, t, h + 1, t, h2 + 1);
    }
  }

  lemma {:induction false} StoredLabels(d: Bytes, p: nat, b: nat, h: nat)
    requires NameAt(d, p, b, h).Some?
    ensures forall l :: l in NameAt(d, p, b, h).value ==> 1 <= |l| <= MAX_LABEL
    decreases b, |d| - p
  {
    if d[p] / 64 == 0 {
      if d[p] != 0 { StoredLabels(d, p + 1 + d[p], b, 0); }
    } else {
      StoredLabels(d, Target(d, p), Target(d, p), h + 1);
    }
  }

  /** Reading the first label of a stored name, and where the rest is stored. */
  lemma {:induction false} LabelOfStored(d: Bytes, p: nat, b: nat, h: nat)
    requires HEADER <= p && b <= p && NameAt(d, p, b, h).Some?
    ensures var n := NameAt(d, p, b, h).value;
            var e := LabelAt(d, p, h);
            if n == [] then e.lab == []
            else e.lab == n[0] && e.lab != [] && HEADER <= e.nxt && Stored(d, e.nxt) == Some(n[1..])
    decreases b, |d| - p
  {
    if d[p] / 64 == 0 {
      if d[p] != 0 { NameAtRelax(d, p + 1 + d[p], b, 0, p + 1 + d[p], 0); }
    } else {
      LabelOfStored(d, Target(d, p), Target(d, p), h + 1);
    }
  }

  // ----- pointer runs -----

  /** The number of pointers in a row from p. */
  function PtrRun(d: Bytes, p: nat): nat {
    if p < |d| && d[p] / 64 == 3 && |d| - p >= 2 && HEADER <= Target(d, p) < p then 1 + PtrRun(d, Target(d, p)) else 0
  }

  /** A stored name can be read after h earlier hops exactly when the run fits the limit. */
  lemma {:induction false} RunHops(d: Bytes, p: nat, h: nat)
    requires NameAt(d, p, p, 0).Some? && h <= MAX_PTRS
    ensures NameAt(d, p, p, h) == (if h + PtrRun(d, p) <= MAX_PTRS then Stored(d, p) else None)
  {
    RunHopsFrom(d, p, p, 0, h);
  }

  lemma {:induction false} RunHopsFrom(d: Bytes, p: nat, b: nat, g: nat, h: nat)
    requires b <= p && NameAt(d, p, b, g).Some? && g <= h <= MAX_PTRS && (b == p || d[p] / 64 != 3)
    ensures NameAt(d, p, b, h) == (if h + PtrRun(d, p) <= MAX_PTRS then NameAt(d, p, b, g) else None)
    decreases b, |d| - p
  {
    if d[p] / 64 == 3 && h < MAX_PTRS {
      RunHopsFrom(d, Target(d, p), Target(d, p), g + 1, h + 1);
    }
  }

  // ----- reading stored names -----

  /** Steps enough to read the rest of a stored name. */
  function Steps(n: Name, h: nat): nat
    requires h <= MAX_PTRS
  {
    128 * |n| + 128 - h
  }

  lemma {:induction false} ReadStored(d: Bytes, p: nat, b: nat, h: nat, fuel: nat)
    requires NameAt(d, p, b, h).Some? && h <= MAX_PTRS
    requires fuel >= Steps(NameAt(d, p, b, h).value, h)
    ensures Read(d, p, h, fuel) == Labels(NameAt(d, p, b, h).value)
    decreases b, |d| - p
  {
    if d[p] / 64 == 0 {
      if d[p] != 0 { ReadStored(d, p + 1 + d[p], b, 0, fuel - 1); }
    } else {
      ReadStored(d, Target(d, p), Target(d, p), h + 1, fuel - 1);
    }
  }

  // ----- freshly written names -----

  lemma OneLiteral(d: Bytes, p: nat, l: Label, bound: nat, h: nat)
    requires 1 <= |l| <= MAX_LABEL && p + 1 + |l| < |d| && d[p..p + 1 + |l|] == [|l|] + l
    ensures var q := p + 1 + |l|;
            && NameAt(d, p, bound, h) == Attach([l], NameAt(d, q, bound, 0))
            && NameEnd(d, p) == NameEnd(d, q)
  {
    var w := d[p..p + 1 + |l|];
    assert d[p] == w[0] == |l|;
    assert d[p + 1..p + 1 + |l|] == w[1..] == l;
  }

  function Attach(m: Name, r: Option<Name>): Option<Name> {
    if r.Some? then Some(m + r.value) else None
  }

  lemma AttachTwice(l: Label, m: Name, r: Option<Name>)
    ensures Attach([l], Attach(m, r)) == Attach([l] + m, r)
  {
    if r.Some? { assert [l] + (m + r.value) == [l] + m + r.value; }
  }

  lemma SplitAt(d: Bytes, p: nat, k: nat, w: Bytes)
    requires k <= |w| && p + |w| <= |d| && d[p..p + |w|] == w
    ensures d[p..p + k] == w[..k] && d[p + k..p + |w|] == w[k..]
  {
    assert d[p..p + k] == d[p..p + |w|][..k];
    assert d[p + k..p + |w|] == d[p..p + |w|][k..];
  }

  predicate Sized(m: Name) { forall i :: 0 <= i < |m| ==> 1 <= |m[i]| <= MAX_LABEL }

  lemma WireHead(m: Name)
    requires m != [] && Sized(m)
    ensures Sized(m[1..])
    ensures var w, k := WireLabels(m), 1 + |m[0]|;
            k <= |w| && w[..k] == [|m[0]|] + m[0] && w[k..] == WireLabels(m[1..]) && (|m| == 1 ==> |w| == k)
  {
  }

  lemma WireStep(d: Bytes, p: nat, m: Name)
    requires m != [] && Sized(m) && p + |WireLabels(m)| < |d| && d[p..p + |WireLabels(m)|] == WireLabels(m)
    ensures var k, rest := 1 + |m[0]|, m[1..];
            && Sized(rest) && 1 <= |m[0]| <= MAX_LABEL && m == [m[0]] + rest
            && d[p..p + k] == [|m[0]|] + m[0] && p + k + |WireLabels(rest)| == p + |WireLabels(m)|
            && d[p + k..p + k + |WireLabels(rest)|] == WireLabels(rest)
  {
    WireHead(m);
    hide *;
    SplitAt(d, p, 1 + |m[0]|, WireLabels(m));
    assert m == [m[0]] + m[1..];
  }

  /** Literal labels in front of a name. */
  lemma {:induction false} LiteralLabels(d: Bytes, p: nat, m: Name, bound: nat, h: nat)
    requires Sized(m) && m != []
    requires p + |WireLabels(m)| < |d| && d[p..p + |WireLabels(m)|] == WireLabels(m)
    ensures var q := p + |WireLabels(m)|;
            && NameAt(d, p, bound, h) == Attach(m, NameAt(d, q, bound, 0))
            && NameEnd(d, p) == NameEnd(d, q)
    decreases |m|
  {
    WireStep(d, p, m);
    var k, rest := 1 + |m[0]|, m[1..];
    assert rest == [] ==> WireLabels(rest) == [] && m == [m[0]];
    hide *;
    OneLiteral(d, p, m[0], bound, h);
    if rest != [] {
      LiteralLabels(d, p + k, rest, bound, 0);
      AttachTwice(m[0], rest, NameAt(d, p + |WireLabels(m)|, bound, 0));
    }
  }
}
