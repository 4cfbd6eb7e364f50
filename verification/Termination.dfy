/** When reading a name halts: unless the reader comes back to a place it has been, and then
    within 128 steps per packet byte. */
module Termination {
  import opened Options
  import opened Names
  import opened Counting

  /** Where the reader stands: the offset and the pointers followed since the last label. */
  datatype Place = Place(src: nat, nptrs: nat)

  predicate Inside(d: Bytes, p: Place) { p.src < |d| && p.nptrs <= MAX_PTRS }

  function Code(p: Place): nat { p.src * 128 + p.nptrs }

  /** One step, when the reader neither ends nor fails at p. */
  function Move(d: Bytes, p: Place): Option<Place>
    requires Inside(d, p)
    ensures Move(d, p).Some? ==> Move(d, p).value.nptrs <= MAX_PTRS
  {
    var b := d[p.src];
    if b / 64 == 0 && b != 0 && |d| - (p.src + 1) >= b then Some(Place(p.src + 1 + b, 0))
    else if b / 64 == 3 && p.nptrs + 1 <= MAX_PTRS && |d| - p.src >= 2 then Some(Place(Target(d, p.src), p.nptrs + 1))
    else None
  }

  /** The places visited, while the reader stays inside, for n steps. */
  ghost predicate Walks(d: Bytes, t: seq<Place>) {
    && |t| >= 1
    && (forall i :: 0 <= i < |t| ==> Inside(d, t[i]))
    && (forall i :: 0 <= i < |t| - 1 ==> Move(d, t[i]) == Some(t[i + 1]))
  }

  /** An unfinished reading has visited one place per step of fuel. */
  lemma {:induction false} Unfinished(d: Bytes, p: Place, fuel: nat) returns (t: seq<Place>)
    requires p.nptrs <= MAX_PTRS && Read(d, p.src, p.nptrs, fuel).Unfinished?
    ensures Walks(d, t) && t[0] == p && |t| == fuel + 1
    decreases fuel
  {
    if fuel == 0 {
      t := [p];
    } else {
      var q := Move(d, p).value;
      var r := Unfinished(d, q, fuel - 1);
      t := [p] + r;
    }
  }

  lemma {:induction false} WalkUnfinished(d: Bytes, t: seq<Place>, fuel: nat)
    requires Walks(d, t) && fuel < |t|
    ensures Read(d, t[0].src, t[0].nptrs, fuel).Unfinished?
  {
    if fuel > 0 { WalkUnfinished(d, t[1..], fuel - 1); }
  }

  /** A walk that returns to an earlier place can be made as long as one likes. */
  lemma {:induction false} Loop(d: Bytes, t: seq<Place>, i: nat, n: nat) returns (u: seq<Place>)
    requires Walks(d, t) && i < |t| - 1 && t[i] == t[|t| - 1]
    ensures Walks(d, u) && |u| >= n && u[0] == t[0]
    decreases if n > |t| then n - |t| else 0
  {
    if n <= |t| {
      u := t;
    } else {
      var s := t + [t[i + 1]];
      assert s[i + 1] == s[|s| - 1];
      assert i + 1 < |s| - 1;
      forall k | 0 <= k < |s| - 1 ensures Move(d, s[k]) == Some(s[k + 1]) {
        if k == |t| - 1 { assert Move(d, t[i]) == Some(t[i + 1]); }
      }
      u := Loop(d, s, i + 1, n);
    }
  }

  lemma Repeats(d: Bytes, t: seq<Place>) returns (i: nat, j: nat)
    requires (forall k :: 0 <= k < |t| ==> Inside(d, t[k])) && |t| > 128 * |d|
    ensures i < j < |t| && t[i] == t[j]
  {
    var c := seq(|t|, k requires 0 <= k < |t| => Code(t[k]));
    i, j := Pigeonhole(c, 128 * |d|);
    assert c[i] == c[j];
  }

  /** The reader, started at src, comes back to a place it has been. */
  ghost predicate ComesBack(d: Bytes, src: nat) {
    exists t: seq<Place>, i: nat :: Walks(d, t) && t[0] == Place(src, 0) && i < |t| - 1 && t[i] == t[|t| - 1]
  }

  lemma LongReading(d: Bytes, src: nat)
    requires Read(d, src, 0, 128 * |d|).Unfinished?
    ensures ComesBack(d, src)
  {
    var t := Unfinished(d, Place(src, 0), 128 * |d|);
    var i, j := Repeats(d, t);
    var loop := t[..j + 1];
    assert Walks(d, loop) && loop[0] == Place(src, 0) && i < |loop| - 1 && loop[i] == loop[|loop| - 1];
  }

  lemma BackForever(d: Bytes, src: nat, fuel: nat)
    requires ComesBack(d, src)
    ensures Read(d, src, 0, fuel).Unfinished?
  {
    var t: seq<Place>, i: nat :| Walks(d, t) && t[0] == Place(src, 0) && i < |t| - 1 && t[i] == t[|t| - 1];
    var u := Loop(d, t, i, fuel + 1);
    WalkUnfinished(d, u, fuel);
  }

  /** Reading a name never ends exactly when the reader comes back to where it has been. */
  lemma NeverEnds(d: Bytes, src: nat)
    ensures (forall fuel: nat :: Read(d, src, 0, fuel).Unfinished?) <==> ComesBack(d, src)
  {
    if ComesBack(d, src) {
      forall fuel: nat ensures Read(d, src, 0, fuel).Unfinished? { BackForever(d, src, fuel); }
    } else {
      var fuel := 128 * |d|;
      if Read(d, src, 0, fuel).Unfinished? { LongReading(d, src); }
      assert !Read(d, src, 0, fuel).Unfinished?;
    }
  }

  /** A reading that ends takes at most 128 steps per byte. */
  lemma HaltsInTime(d: Bytes, src: nat)
    ensures (exists fuel: nat :: !Read(d, src, 0, fuel).Unfinished?) <==> !Read(d, src, 0, 128 * |d|).Unfinished?
  {
    if Read(d, src, 0, 128 * |d|).Unfinished? {
      LongReading(d, src);
      NeverEnds(d, src);
    }
  }

  /** A label followed by a pointer back to it. */
  const CYCLE: Bytes := [0, 0, 0, 0, 0, 0, 0, 0, 0, 0, 0, 0, 1, 97, 192, 12]

  /** Some packets are never read to an end. */
  lemma {:induction false} CycleNeverRead(fuel: nat)
    ensures Read(CYCLE, 12, 0, fuel).Unfinished?
  {
    if fuel >= 2 {
      CycleNeverRead(fuel - 2);
      assert Target(CYCLE, 14) == 12;
      CycleHops(fuel - 2);
      assert Read(CYCLE, 14, 0, fuel - 1) == Read(CYCLE, 12, 1, fuel - 2);
    }
  }

  /** After a label it does not matter how many pointers led to it. */
  lemma CycleHops(fuel: nat)
    ensures Read(CYCLE, 12, 1, fuel) == Read(CYCLE, 12, 0, fuel)
  {
  }
}
