/** Names on any bytes: what they spell, without the reader, and that it is what the reader returns. */
module Spelling {
  import opened Options
  import opened Names
  import opened RecordData
  import opened Termination

  /** Two octets that are a pointer (section 4.1.4 of RFC 1035): the two highest bits set, then the offset. */
  predicate Points(d: Bytes, p: nat, t: nat) {
    && p + 2 <= |d| && d[p] >= 192
    && var a: int, b: int := d[p], d[p + 1]; 256 * (a - 192) + b == t
  }

  /** Pointer after pointer, k of them, from p to q. */
  ghost predicate Leads(d: Bytes, p: nat, k: nat, q: nat)
    decreases k
  {
    if k == 0 then p == q else exists t: nat :: Points(d, p, t) && Leads(d, t, k - 1, q)
  }

  /** The name n is spelled from p on, after h pointers already: label by label, each of 1 to 63 octets behind its
      length, up to a zero, with at most 127 pointers in a row in front of each. */
  ghost predicate Spelled(d: Bytes, p: nat, h: nat, n: Name)
    decreases |n|
  {
    exists k: nat, q: nat :: h + k <= 127 && Leads(d, p, k, q) && Begins(d, q, n) &&
        (n != [] ==> Spelled(d, q + 1 + |n[0]|, 0, n[1..]))
  }

  /** The end of a name, or its first label, stands at q. */
  predicate Begins(d: Bytes, q: nat, n: Name) {
    if n == [] then q < |d| && d[q] == 0
    else 1 <= |n[0]| <= 63 && q + 1 + |n[0]| <= |d| && d[q] == |n[0]| && d[q + 1..q + 1 + |n[0]|] == n[0]
  }

  lemma PointsIs(d: Bytes, p: nat, t: nat)
    ensures Points(d, p, t) <==> p + 2 <= |d| && d[p] / 64 == 3 && Target(d, p) == t
  {
  }

  /** One pointer further back. */
  lemma LeadsMore(d: Bytes, p: nat, h: nat, t: nat, n: Name)
    requires Points(d, p, t) && Spelled(d, t, h + 1, n)
    ensures Spelled(d, p, h, n)
  {
    hide Points, Begins, Leads;
    var k: nat, q: nat :| h + 1 + k <= 127 && Leads(d, t, k, q) && Begins(d, q, n) &&
        (n != [] ==> Spelled(d, q + 1 + |n[0]|, 0, n[1..]));
    LeadsFrom(d, p, t, k, q);
    assert h + (k + 1) <= 127 && Leads(d, p, k + 1, q);
  }

  lemma LeadsFrom(d: Bytes, p: nat, t: nat, k: nat, q: nat)
    requires Points(d, p, t) && Leads(d, t, k, q)
    ensures Leads(d, p, k + 1, q)
  {
    hide Points;
  }

  lemma SpelledHere(d: Bytes, p: nat, h: nat, n: Name)
    requires h <= 127 && Begins(d, p, n) && (n != [] ==> Spelled(d, p + 1 + |n[0]|, 0, n[1..]))
    ensures Spelled(d, p, h, n)
  {
    hide Begins;
    assert h + 0 <= 127 && Leads(d, p, 0, p);
  }

  /** What the reader returns is spelled there. */
  lemma {:induction false} ReadSpelled(d: Bytes, p: nat, h: nat, fuel: nat)
    requires h <= 127 && Read(d, p, h, fuel).Labels?
    ensures Spelled(d, p, h, Read(d, p, h, fuel).n)
    decreases fuel
  {
    hide Spelled, Points;
    var n := Read(d, p, h, fuel).n;
    if d[p] / 64 == 3 {
      PointsIs(d, p, Target(d, p));
      ReadSpelled(d, Target(d, p), h + 1, fuel - 1);
      LeadsMore(d, p, h, Target(d, p), n);
    } else {
      if d[p] != 0 {
        ReadSpelled(d, p + 1 + d[p], 0, fuel - 1);
        assert n[1..] == Read(d, p + 1 + d[p], 0, fuel - 1).n;
      }
      SpelledHere(d, p, h, n);
    }
  }

  lemma {:induction false} LeadsRead(d: Bytes, p: nat, h: nat, k: nat, q: nat, n: Name, f: nat)
    requires h + k <= 127 && Leads(d, p, k, q) && Read(d, q, h + k, f) == Labels(n)
    ensures Read(d, p, h, f + k) == Labels(n)
    decreases k
  {
    hide Points;
    if k > 0 {
      var t: nat :| Points(d, p, t) && Leads(d, t, k - 1, q);
      PointsIs(d, p, t);
      LeadsRead(d, t, h + 1, k - 1, q, n, f);
    }
  }

  /** What is spelled, the reader returns, given steps enough. */
  lemma {:induction false} SpelledRead(d: Bytes, p: nat, h: nat, n: Name) returns (f: nat)
    requires Spelled(d, p, h, n)
    ensures Read(d, p, h, f) == Labels(n)
    decreases |n|
  {
    hide Leads, Begins;
    var k: nat, q: nat :| h + k <= 127 && Leads(d, p, k, q) && Begins(d, q, n) &&
        (n != [] ==> Spelled(d, q + 1 + |n[0]|, 0, n[1..]));
    var g := 0;
    if n != [] { g := SpelledRead(d, q + 1 + |n[0]|, 0, n[1..]); }
    BeginsRead(d, q, h + k, n, g);
    LeadsRead(d, p, h, k, q, n, g + 1);
    f := g + 1 + k;
  }

  lemma BeginsRead(d: Bytes, q: nat, h: nat, n: Name, g: nat)
    requires Begins(d, q, n) && (n != [] ==> Read(d, q + 1 + |n[0]|, 0, g) == Labels(n[1..]))
    ensures Read(d, q, h, g + 1) == Labels(n)
  {
    if n != [] { assert [n[0]] + n[1..] == n; }
  }

  /** On any bytes the reader returns a name if and only if it is spelled there. */
  lemma ExpandExact(d: Bytes, p: nat, n: Name)
    ensures Expand(d, p) == Labels(n) <==> Spelled(d, p, 0, n)
  {
    hide Spelled, Read;
    if Expand(d, p) == Labels(n) { ReadSpelled(d, p, 0, 128 * |d|); }
    if Spelled(d, p, 0, n) {
      var f := SpelledRead(d, p, 0, n);
      HaltsInTime(d, p);
      if f <= 128 * |d| { ReadMore(d, p, 0, f, 128 * |d|); } else { ReadMore(d, p, 0, 128 * |d|, f); }
    }
  }

  /** What the encoder stores is spelled there. */
  lemma StoredSpelled(d: Bytes, p: nat)
    requires Stored(d, p).Some?
    ensures Spelled(d, p, 0, Stored(d, p).value)
  {
    ExpandStored(d, p);
    ExpandExact(d, p, Stored(d, p).value);
    hide Spelled;
  }
}
