/** The query-id permutor: a balanced Feistel network, outputs too large skipped; the round function is arbitrary. */
module Permutor {
  import opened Bits
  import opened Counting

  const WORD := 0x1_0000_0000
  const ROUNDS := 8

  datatype Half = Half(l: nat, r: nat)

  /** The part of the state that a call never changes. */
  datatype Cipher = Cipher(shift: nat, rounds: nat, f: (nat, nat) -> nat) {

    predicate Valid() { rounds >= 2 }

    /** Size of the permuted range. */
    function Size(): (n: nat)
      ensures n >= 1
    {
      Pow2(2 * shift)
    }

    function F(k: nat, x: nat): (y: nat)
      ensures y < Pow2(shift)
    {
      f(k, x) % Pow2(shift)
    }

    predicate Fits(h: Half) { h.l < Pow2(shift) && h.r < Pow2(shift) }

    function Split(n: nat): (h: Half)
      ensures Fits(h)
    {
      Half(n / Pow2(shift) % Pow2(shift), n % Pow2(shift))
    }

    function Join(h: Half): nat { h.l * Pow2(shift) + h.r }

    /** Rounds i, i+1, ..., rounds-2. */
    function Forward(i: nat, h: Half): Half
      decreases rounds - i
    {
      if i + 1 >= rounds then h else Forward(i + 1, Half(h.r, Xor(h.l, F(i, h.r))))
    }

    /** Undoes rounds i-1, ..., 0. */
    function Backward(i: nat, h: Half): Half
    {
      if i == 0 then h else Backward(i - 1, Half(Xor(h.r, F(i - 1, h.l)), h.l))
    }

    function Encrypt(n: nat): nat { Join(Forward(0, Split(n))) }

    function Decrypt(n: nat): nat
      requires Valid()
    {
      Join(Backward(rounds - 1, Split(n)))
    }
  }

  lemma SplitJoin(c: Cipher, h: Half)
    requires c.Fits(h)
    ensures c.Split(c.Join(h)) == h
    ensures c.Join(h) < c.Size()
  {
    Pow2Add(c.shift, c.shift);
    TwoDigits(Pow2(c.shift), h.l, h.r);
    ModUnique(h.l, Pow2(c.shift), 0, h.l);
  }

  lemma JoinSplit(c: Cipher, n: nat)
    ensures c.Join(c.Split(n)) == n % c.Size()
  {
    Pow2Add(c.shift, c.shift);
    LowDigits(Pow2(c.shift), n);
  }

  /** One more forward round, read from the back. */
  lemma {:induction false} ForwardFits(c: Cipher, i: nat, h: Half)
    requires c.Fits(h)
    ensures c.Fits(c.Forward(i, h))
    decreases c.rounds - i
  {
    if i + 1 < c.rounds {
      XorBound(h.l, c.F(i, h.r), c.shift);
      ForwardFits(c, i + 1, Half(h.r, Xor(h.l, c.F(i, h.r))));
    }
  }

  lemma {:induction false} BackwardFits(c: Cipher, i: nat, h: Half)
    requires c.Fits(h)
    ensures c.Fits(c.Backward(i, h))
  {
    if i > 0 {
      XorBound(h.r, c.F(i - 1, h.l), c.shift);
      BackwardFits(c, i - 1, Half(Xor(h.r, c.F(i - 1, h.l)), h.l));
    }
  }

  /** Running the remaining rounds forward and then all rounds backward undoes only the rounds before i. */
  lemma {:induction false} BackwardForward(c: Cipher, i: nat, h: Half)
    requires i + 1 <= c.rounds
    ensures c.Backward(c.rounds - 1, c.Forward(i, h)) == c.Backward(i, h)
    decreases c.rounds - i
  {
    if i + 1 < c.rounds {
      var g := Half(h.r, Xor(h.l, c.F(i, h.r)));
      BackwardForward(c, i + 1, g);
      XorCancel(h.l, c.F(i, h.r));
      assert c.Backward(i + 1, g) == c.Backward(i, h);
    }
  }

  lemma {:induction false} ForwardBackward(c: Cipher, i: nat, h: Half)
    requires i + 1 <= c.rounds
    ensures c.Forward(0, c.Backward(i, h)) == c.Forward(i, h)
  {
    if i > 0 {
      var g := Half(Xor(h.r, c.F(i - 1, h.l)), h.l);
      ForwardBackward(c, i - 1, g);
      XorCancel(h.r, c.F(i - 1, h.l));
      assert c.Forward(i - 1, g) == c.Forward(i, h);
    }
  }

  /** Decryption inverts encryption on the whole range, and conversely: the network is a bijection. */
  lemma FeistelInverse(c: Cipher, n: nat)
    requires c.Valid() && n < c.Size()
    ensures c.Encrypt(n) < c.Size() && c.Decrypt(c.Encrypt(n)) == n
    ensures c.Decrypt(n) < c.Size() && c.Encrypt(c.Decrypt(n)) == n
  {
    var h := c.Split(n);
    JoinSplit(c, n);
    ModUnique(n, c.Size(), 0, n);
    var e := c.Forward(0, h);
    ForwardFits(c, 0, h);
    SplitJoin(c, e);
    BackwardForward(c, 0, h);
    var b := c.Backward(c.rounds - 1, h);
    BackwardFits(c, c.rounds - 1, h);
    SplitJoin(c, b);
    ForwardBackward(c, c.rounds - 1, h);
  }

  /** Only the low 2*shift bits of the counter matter, so its 32-bit wrap-around is invisible. */
  lemma EncryptPeriodic(c: Cipher, n: nat)
    ensures c.Encrypt(n) == c.Encrypt(n % c.Size())
  {
    SplitJoin(c, c.Split(n));
    JoinSplit(c, n);
  }

  /** A cipher restricted to low .. low+length-1 by skipping larger outputs. */
  datatype Range = Range(c: Cipher, low: nat, length: nat) {

    ghost predicate Valid() {
      c.Valid() && 1 <= length <= c.Size() && WORD % c.Size() == 0
    }

    predicate Hit(t: nat) { c.Encrypt(t) < length }

    function Out(t: nat): nat { low + c.Encrypt(t) }

    /** How far the counter is from the input that encrypts to 0. */
    function Gap(t: nat): (g: nat)
      requires c.Valid()
      ensures g < c.Size()
    {
      (c.Decrypt(0) + c.Size() - t % c.Size()) % c.Size()
    }

    /** The first counter value at or after t whose output is kept. */
    function Next(t: nat): (i: nat)
      requires Valid()
      ensures i >= t && Hit(i) && i <= t + Gap(t)
      ensures forall j :: t <= j < i ==> !Hit(j)
      decreases Gap(t)
    {
      GapStep(this, t);
      if Hit(t) then t else Next(t + 1)
    }

    /** The values returned by k consecutive calls, the counter standing at t. */
    function Calls(t: nat, k: nat): (s: seq<nat>)
      requires Valid()
      ensures |s| == k
      decreases k
    {
      if k == 0 then [] else [Out(Next(t))] + Calls(Next(t) + 1, k - 1)
    }

    /** The outputs kept while the counter runs over t, ..., t+n-1. */
    function Outs(t: nat, n: nat): seq<nat>
      decreases n
    {
      if n == 0 then [] else (if Hit(t) then [Out(t)] else []) + Outs(t + 1, n - 1)
    }
  }

  lemma GapStep(g: Range, t: nat)
    requires g.Valid()
    ensures !g.Hit(t) ==> g.Gap(t) > 0 && g.Gap(t + 1) == g.Gap(t) - 1
  {
    var n := g.c.Size();
    FeistelInverse(g.c, 0);
    EncryptPeriodic(g.c, t);
    ModStep(t, n);
    var z := g.c.Decrypt(0);
    if t % n < z {
      ModUnique(z + n - t % n, n, 1, z - t % n);
      if t % n < n - 1 { ModUnique(z + n - (t + 1) % n, n, 1, z - t % n - 1); }
    } else if t % n > z {
      ModUnique(z + n - t % n, n, 0, z + n - t % n);
      if t % n < n - 1 {
        ModUnique(z + n - (t + 1) % n, n, 0, z + n - t % n - 1);
      } else {
        if z == 0 { ModUnique(n, n, 1, 0); } else { ModUnique(z + n, n, 1, z); }
      }
    }
  }

  lemma {:induction false} CallsAreOuts(g: Range, t: nat, n: nat)
    requires g.Valid()
    ensures g.Calls(t, |g.Outs(t, n)|) == g.Outs(t, n)
    decreases n
  {
    if n > 0 {
      CallsAreOuts(g, t + 1, n - 1);
    }
  }

  lemma {:induction false} OutsContain(g: Range, t: nat, n: nat, i: nat)
    requires t <= i < t + n && g.Hit(i)
    ensures g.Out(i) in g.Outs(t, n)
    decreases n
  {
    if t < i { OutsContain(g, t + 1, n - 1, i); }
  }

  lemma {:induction false} OutsOrigin(g: Range, t: nat, n: nat, v: nat) returns (i: nat)
    requires v in g.Outs(t, n)
    ensures t <= i < t + n && g.Hit(i) && g.Out(i) == v
    decreases n
  {
    if g.Hit(t) && g.Out(t) == v { i := t; } else { i := OutsOrigin(g, t + 1, n - 1, v); }
  }

  /** Distinct counter values less than a period apart give distinct outputs. */
  lemma SameOutput(g: Range, i: nat, j: nat)
    requires g.Valid() && i <= j < i + g.c.Size() && g.Out(i) == g.Out(j)
    ensures i == j
  {
    var n := g.c.Size();
    EncryptPeriodic(g.c, i);
    EncryptPeriodic(g.c, j);
    FeistelInverse(g.c, i % n);
    FeistelInverse(g.c, j % n);
    SameRemainder(i, j, n);
  }

  lemma {:induction false} OutsDistinct(g: Range, t: nat, n: nat)
    requires g.Valid() && n <= g.c.Size()
    ensures Distinct(g.Outs(t, n))
    decreases n
  {
    if n > 0 {
      OutsDistinct(g, t + 1, n - 1);
      var rest := g.Outs(t + 1, n - 1);
      if g.Hit(t) && g.Out(t) in rest {
        var i := OutsOrigin(g, t + 1, n - 1, g.Out(t));
        SameOutput(g, t, i);
        assert false;
      }
    }
  }

  lemma {:induction false} OutsInRange(g: Range, t: nat, n: nat)
    ensures forall v :: v in g.Outs(t, n) ==> g.low <= v < g.low + g.length
    decreases n
  {
    if n > 0 { OutsInRange(g, t + 1, n - 1); }
  }

  lemma OutsComplete(g: Range, t: nat, v: nat)
    requires g.Valid() && g.low <= v < g.low + g.length
    ensures v in g.Outs(t, g.c.Size())
  {
    var x := v - g.low;
    FeistelInverse(g.c, x);
    var i := RemainderInWindow(t, g.c.Size(), g.c.Decrypt(x));
    EncryptPeriodic(g.c, i);
    OutsContain(g, t, g.c.Size(), i);
  }

  /** Any `length` consecutive calls return every value of the range exactly once. */
  lemma Coverage(g: Range, t: nat)
    requires g.Valid()
    ensures Distinct(g.Calls(t, g.length))
    ensures forall v :: v in g.Calls(t, g.length) <==> g.low <= v < g.low + g.length
  {
    var n := g.c.Size();
    var s := g.Outs(t, n);
    OutsDistinct(g, t, n);
    OutsInRange(g, t, n);
    forall v | g.low <= v < g.low + g.length ensures v in s { OutsComplete(g, t, v); }
    DistinctCount(s, Interval(g.low, g.length));
    CallsAreOuts(g, t, n);
  }

  lemma WordPeriod(g: Range, t: nat)
    requires g.Valid()
    ensures g.c.Encrypt(t + WORD) == g.c.Encrypt(t)
  {
    var n := g.c.Size();
    EncryptPeriodic(g.c, t);
    EncryptPeriodic(g.c, t + WORD);
    assert WORD == n * (WORD / n);
    ModShift(t, n, WORD / n);
  }

  ghost predicate Period(g: Range, w: nat) { forall t: nat :: g.c.Encrypt(t + w) == g.c.Encrypt(t) }

  lemma {:induction false} NextShift(g: Range, t: nat, w: nat)
    requires g.Valid() && Period(g, w)
    ensures g.Next(t + w) == g.Next(t) + w
    decreases g.Gap(t)
  {
    assert g.c.Encrypt(t + w) == g.c.Encrypt(t);
    if !g.Hit(t) {
      GapStep(g, t);
      NextShift(g, t + 1, w);
    }
  }

  lemma {:induction false} CallsShift(g: Range, t: nat, k: nat, w: nat)
    requires g.Valid() && Period(g, w)
    ensures g.Calls(t + w, k) == g.Calls(t, k)
    decreases k
  {
    hide *;
    if k == 0 {
      CallsNone(g, t, t + w);
    } else {
      var i, j := g.Next(t), g.Next(t + w);
      CallsHead(g, t, k);
      CallsHead(g, t + w, k);
      NextShift(g, t, w);
      OutShift(g, i, w);
      CallsShift(g, i + 1, k - 1, w);
      assert i + 1 + w == j + 1;
    }
  }

  lemma OutShift(g: Range, i: nat, w: nat)
    requires Period(g, w)
    ensures g.Out(i + w) == g.Out(i)
  {
    assert g.c.Encrypt(i + w) == g.c.Encrypt(i);
  }

  lemma CallsNone(g: Range, t: nat, u: nat)
    requires g.Valid()
    ensures g.Calls(t, 0) == g.Calls(u, 0)
  {
  }

  lemma CallsHead(g: Range, t: nat, k: nat)
    requires g.Valid() && k > 0
    ensures g.Calls(t, k) == [g.Out(g.Next(t))] + g.Calls(g.Next(t) + 1, k - 1)
  {
  }

  /** The calls do not depend on how often the 32-bit counter has wrapped. */
  lemma {:induction false} CallsWrap(g: Range, t: nat, k: nat)
    requires g.Valid()
    ensures g.Calls(t % WORD, k) == g.Calls(t, k)
  {
    hide Range.Calls;
    if t < WORD {
      ModUnique(t, WORD, 0, t);
    } else {
      ModShift(t - WORD, WORD, 1);
      forall i: nat ensures g.c.Encrypt(i + WORD) == g.c.Encrypt(i) { WordPeriod(g, i); }
      CallsShift(g, t - WORD, k, WORD);
      CallsWrap(g, t - WORD, k);
    }
  }

  lemma {:induction false} CallsJoin(g: Range, t: nat, j: nat, k: nat) returns (u: nat)
    requires g.Valid()
    ensures g.Calls(t, j + k) == g.Calls(t, j) + g.Calls(u, k)
    decreases j
  {
    if j == 0 { u := t; } else { u := CallsJoin(g, g.Next(t) + 1, j - 1, k); }
  }

  /** A call at counter t returns the next kept output and leaves the 32-bit counter just past it. */
  ghost predicate IsStep(g: Range, t: nat, id: nat, u: nat) {
    g.Valid() && id == g.Out(g.Next(t)) && u == (g.Next(t) + 1) % WORD
  }

  lemma CallsStep(g: Range, t: nat, k: nat, id: nat, u: nat)
    requires k > 0 && IsStep(g, t, id, u)
    ensures g.Valid() && g.Calls(t, k) == [id] + g.Calls(u, k - 1)
  {
    CallsWrap(g, g.Next(t) + 1, k - 1);
  }

  lemma CallsZero(g: Range, t: nat)
    requires g.Valid()
    ensures g.Calls(t, 0) == []
  {
  }

  class Permutor {
    var stepi: nat
    var length: nat
    var limit: nat
    var shift: nat
    var mask: nat
    var rounds: nat
    const f: (nat, nat) -> nat   // the keyed block cipher, before masking

    ghost function Gen(): Range
      requires length <= limit + 1
      reads this
    {
      Range(Cipher(shift, rounds, f), limit + 1 - length, length)
    }

    ghost predicate Valid()
      reads this
    {
      && stepi < WORD && rounds == ROUNDS && shift <= 16 && mask == Pow2(shift) - 1
      && 1 <= length <= limit + 1 && length <= Pow2(2 * shift)
    }

    lemma ValidParts()
      requires Valid()
      ensures length <= limit + 1 && Gen().Valid()
    {
      ValidGen();
    }

    lemma ValidGen()
      requires Valid()
      ensures Gen().Valid()
    {
      WordSize(shift);
    }

    /** The range `low..high`; the width computation needs at most 2^31 values. */
    constructor (low: nat, high: nat, f: (nat, nat) -> nat)
      requires low <= high < WORD && high - low + 1 <= 0x8000_0000
      ensures Valid() && stepi == 0 && this.f == f
      ensures Gen().low == low && Gen().length == high - low + 1
    {
      stepi := 0;
      length := high - low + 1;
      limit := high;
      var half := HalfWidth(high - low + 1);
      shift := half;
      mask := Pow2(half) - 1;
      rounds := ROUNDS;
      this.f := f;
    }

    method Round(k: nat, x: nat) returns (y: nat)
      requires Valid()
      ensures y == Gen().c.F(k, x)
    {
      y := f(k, x) % (mask + 1);
    }

    /** All rounds, first to last. */
    method ForwardRounds(l0: nat, r0: nat) returns (l: nat, r: nat)
      requires Valid() && Gen().c.Fits(Half(l0, r0))
      ensures Half(l, r) == Gen().c.Forward(0, Half(l0, r0))
    {
      ghost var c := Gen().c;
      l, r := l0, r0;
      var i := 0;
      while i < rounds - 1
        invariant 0 <= i <= rounds - 1
        invariant c.Fits(Half(l, r))
        invariant c.Forward(i, Half(l, r)) == c.Forward(0, Half(l0, r0))
      {
        var y := Round(i, r);
        XorBound(l, y, shift);
        l, r := r, Xor(l, y);
        i := i + 1;
      }
    }

    method Encrypt(n: nat) returns (e: nat)
      requires Valid()
      ensures e == Gen().c.Encrypt(n)
    {
      var m := mask + 1;
      ghost var c := Gen().c;
      assert m == Pow2(c.shift);
      hide Cipher.Forward, Pow2;
      var l, r := ForwardRounds(n / m % m, n % m);
      e := l * m + r;
    }

    /** All rounds, last to first. */
    method BackwardRounds(l0: nat, r0: nat) returns (l: nat, r: nat)
      requires Valid() && Gen().c.Fits(Half(l0, r0))
      ensures Half(l, r) == Gen().c.Backward(rounds - 1, Half(l0, r0))
    {
      ghost var c := Gen().c;
      l, r := l0, r0;
      var i := rounds - 1;
      while i > 0
        invariant 0 <= i <= rounds - 1
        invariant c.Fits(Half(l, r))
        invariant c.Backward(i, Half(l, r)) == c.Backward(rounds - 1, Half(l0, r0))
      {
        i := i - 1;
        var y := Round(i, l);
        XorBound(r, y, shift);
        l, r := Xor(r, y), l;
      }
    }

    method Decrypt(n: nat) returns (e: nat)
      requires Valid()
      ensures Gen().c.Valid() && e == Gen().c.Decrypt(n)
    {
      var m := mask + 1;
      ghost var c := Gen().c;
      assert m == Pow2(c.shift);
      hide Cipher.Backward, Pow2;
      var l, r := BackwardRounds(n / m % m, n % m);
      e := l * m + r;
    }

    /** Encrypts the counter and advances it; t is the counter before any wrap. */
    method Advance(ghost t: nat) returns (n: nat)
      requires Valid() && stepi == t % WORD
      modifies this`stepi
      ensures Valid() && Gen() == old(Gen())
      ensures n == Gen().c.Encrypt(t) && stepi == (t + 1) % WORD
    {
      ValidGen();
      CounterMod(Gen(), t);
      CounterStep(t);
      n := Encrypt(stepi);
      stepi := (stepi + 1) % WORD;
    }

    /** One call: the next kept output; the counter moves just past it, modulo 2^32. */
    method Step() returns (id: nat)
      requires Valid()
      modifies this`stepi
      ensures Valid() && Gen() == old(Gen())
      ensures IsStep(Gen(), old(stepi), id, stepi)
    {
      ValidGen();
      ghost var g := Gen();
      ghost var t: nat := stepi;
      var n := Advance(t);
      while n >= length
        modifies this`stepi
        invariant Valid() && Gen() == g
        invariant n == g.c.Encrypt(t)
        invariant stepi == (t + 1) % WORD
        invariant g.Next(t) == g.Next(old(stepi))
        decreases g.Gap(t)
      {
        GapStep(g, t);
        t := t + 1;
        n := Advance(t);
      }
      id := n + (limit + 1 - length);
    }

    /** Any number of consecutive calls. */
    method Run(k: nat) returns (ids: seq<nat>)
      requires Valid()
      modifies this`stepi
      ensures Valid() && Gen() == old(Gen()) && Gen().Valid()
      ensures ids == Gen().Calls(old(stepi), k)
    {
      hide *;
      ValidParts();
      ids := [];
      ghost var g := Gen();
      CallsZero(g, stepi);
      for i := 0 to k
        modifies this`stepi
        invariant Valid() && Gen() == g
        invariant g.Calls(old(stepi), k) == ids + g.Calls(stepi, k - i)
      {
        ghost var t: nat := stepi;
        var id := Step();
        CallsStep(g, t, k - i, id, stepi);
        assert ids + ([id] + g.Calls(stepi, k - i - 1)) == ids + [id] + g.Calls(stepi, k - i - 1);
        ids := ids + [id];
      }
      CallsZero(g, stepi);
    }
  }

  lemma CounterStep(t: nat)
    ensures (t % WORD + 1) % WORD == (t + 1) % WORD
  {
    ModStep(t, WORD);
    ModStep(t % WORD, WORD);
    ModUnique(t % WORD, WORD, 0, t % WORD);
  }

  lemma CounterMod(g: Range, t: nat)
    requires g.Valid()
    ensures g.c.Encrypt(t % WORD) == g.c.Encrypt(t)
  {
    var n := g.c.Size();
    EncryptPeriodic(g.c, t);
    EncryptPeriodic(g.c, t % WORD);
    assert WORD == n * (WORD / n);
    ModMod(t, n, WORD / n);
  }

  /** The least i with 2^i >= n. */
  method PowerOf(n: nat) returns (i: nat)
    requires 1 <= n <= 0x8000_0000
    ensures n <= Pow2(i) && (i == 0 || Pow2(i - 1) < n)
  {
    var m := 1;
    i := 0;
    while m < n
      invariant m == Pow2(i) && (i == 0 || Pow2(i - 1) < n)
      decreases n - m
    {
      m := m * 2;
      i := i + 1;
    }
  }

  /** Half the bits needed for n values, rounded up to whole halves. */
  method HalfWidth(n: nat) returns (shift: nat)
    requires 1 <= n <= 0x8000_0000
    ensures shift <= 16 && n <= Pow2(2 * shift)
  {
    hide *;
    var width: nat := PowerOf(n);
    WordPowers();
    WidthBound(width, n);
    Pow2Monotone(width, width + width % 2);
    Halves(width);
    width := width + width % 2;
    shift := width / 2;
  }

  lemma Halves(w: nat)
    ensures 2 * ((w + w % 2) / 2) == w + w % 2
    ensures w <= 31 ==> (w + w % 2) / 2 <= 16
  {
  }

  lemma WidthBound(w: nat, n: nat)
    requires n <= Pow2(31) && (w == 0 || Pow2(w - 1) < n)
    ensures w <= 31
  {
    if w > 31 { Pow2Monotone(31, w - 1); assert false; }
  }

  lemma WordSize(shift: nat)
    requires shift <= 16
    ensures Pow2(2 * shift) <= WORD && WORD % Pow2(2 * shift) == 0
  {
    WordPowers();
    Pow2Divides(2 * shift, 32);
    Pow2Monotone(2 * shift, 32);
  }

  /** Query ids: never 0, and no repetition within any 65535 consecutive ids. */
  lemma QueryIds(g: Range, t: nat, k: nat)
    requires g.Valid() && g.low == 1 && g.length == 65535 && k <= 65535
    ensures Distinct(g.Calls(t, k)) && forall v :: v in g.Calls(t, k) ==> 1 <= v <= 65535
  {
    hide *;
    var m: nat := g.length - k;
    var u := CallsJoin(g, t, k, m);
    assert k + m == g.length;
    Coverage(g, t);
    PartOfCycle(g.Calls(t, k), g.Calls(u, m), g.Calls(t, g.length), 1, 65535);
  }

  lemma PartOfCycle(a: seq<nat>, b: seq<nat>, s: seq<nat>, low: nat, n: nat)
    requires s == a + b && Distinct(s) && forall v :: v in s <==> low <= v < low + n
    ensures Distinct(a) && forall v :: v in a ==> low <= v < low + n
  {
    forall i, j | 0 <= i < j < |a| ensures a[i] != a[j] { assert s[i] != s[j]; }
    forall v | v in a ensures low <= v < low + n { assert v in s; }
  }
}
